/** The ROAS calculator component's state and its metrics effect. The
    component keeps the inputs, the gross margin and the derived figures in
    state; the effect overwrites the margin and the derived figures, and the
    framework runs it again while one of its dependencies (the margin, ad
    spend, ROAS target, order value, selling price, cost of goods) changed. */
module Calculator {
  import opened Metrics

  class RoasCalculator {
    // inputs
    var adSpend: real
    var roasTarget: real
    var sellingPrice: real
    var costOfGoods: real
    var avgOrderValue: real
    // the margin, written by the effect and read by its next run
    var grossMargin: real
    // derived figures
    var revenue: real
    var cogs: real
    var profit: real
    var breakEvenRoas: Ratio
    var adSpendPerOrder: real
    var profitPerOrder: real

    /** The inputs the effect reads, as a value. */
    function CurrentInputs(): Inputs
      reads this
    {
      Inputs(adSpend, roasTarget, sellingPrice, costOfGoods, avgOrderValue)
    }

    /** No setter for the order value exists, so it keeps its initial 100. */
    predicate Valid()
      reads this
    {
      avgOrderValue == 100.0
    }

    /** The state fields the effect writes hold the figures `f`. */
    predicate Shows(f: Figures)
      reads this
    {
      && grossMargin == f.grossMargin
      && revenue == f.revenue
      && cogs == f.cogs
      && profit == f.profit
      && breakEvenRoas == f.breakEvenRoas
      && adSpendPerOrder == f.adSpendPerOrder
      && profitPerOrder == f.profitPerOrder
    }

    /** Every stored figure is the pure map of the current inputs. */
    predicate Settled()
      reads this
      requires Defined(CurrentInputs())
    {
      Shows(Compute(CurrentInputs()))
    }

    /** The initial state. Its margin is already the margin of its inputs,
        but the seeded per-order figures 33.33 and 16.67 are roundings, so
        the state is not settled until the effect first runs. */
    constructor ()
      ensures Valid()
      ensures CurrentInputs() == Seeded()
      ensures grossMargin == 50.0
      ensures revenue == 39000.0 && cogs == 19500.0 && profit == 6500.0
      ensures breakEvenRoas == Finite(2.0)
      ensures adSpendPerOrder == 33.33 && profitPerOrder == 16.67
      ensures grossMargin == GrossMargin(sellingPrice, costOfGoods)
      ensures !Settled()
    {
      grossMargin := 50.0;
      adSpend := 13000.0;
      roasTarget := 3.0;
      sellingPrice := 100.0;
      costOfGoods := 50.0;
      revenue := 39000.0;
      cogs := 19500.0;
      profit := 6500.0;
      breakEvenRoas := Finite(2.0);
      avgOrderValue := 100.0;
      adSpendPerOrder := 33.33;
      profitPerOrder := 16.67;
      new;
      SeededFigures();
    }

    /** Edit of the ad spend field. */
    method SetAdSpend(x: real)
      modifies this`adSpend
      ensures adSpend == x
      ensures old(Valid()) ==> Valid()
    {
      adSpend := x;
    }

    /** Edit of the ROAS target field. */
    method SetRoasTarget(x: real)
      modifies this`roasTarget
      ensures roasTarget == x
      ensures old(Valid()) ==> Valid()
    {
      roasTarget := x;
    }

    /** Edit of the selling price field. */
    method SetSellingPrice(x: real)
      modifies this`sellingPrice
      ensures sellingPrice == x
      ensures old(Valid()) ==> Valid()
    {
      sellingPrice := x;
    }

    /** Edit of the cost of goods field. */
    method SetCostOfGoods(x: real)
      modifies this`costOfGoods
      ensures costOfGoods == x
      ensures old(Valid()) ==> Valid()
    {
      costOfGoods := x;
    }

    /** One run of the effect. It stores the run's figures, computed from the
        margin held in state when it started, and reports whether it changed
        a dependency of its own, which is only possible through the margin. */
    method Effect() returns (rerun: bool)
      requires Defined(CurrentInputs())
      modifies this`grossMargin, this`revenue, this`cogs, this`profit,
        this`breakEvenRoas, this`adSpendPerOrder, this`profitPerOrder
      ensures CurrentInputs() == old(CurrentInputs())
      ensures old(Valid()) ==> Valid()
      ensures Shows(EffectRun(CurrentInputs(), old(grossMargin)))
      ensures grossMargin == GrossMargin(sellingPrice, costOfGoods)
      ensures rerun <==> grossMargin != old(grossMargin)
      ensures !rerun ==> Settled()
      ensures old(Settled()) ==> !rerun && unchanged(this)
    {
      var f := EffectRun(CurrentInputs(), grossMargin);
      rerun := f.grossMargin != grossMargin;
      grossMargin := f.grossMargin;
      revenue := f.revenue;
      cogs := f.cogs;
      profit := f.profit;
      breakEvenRoas := f.breakEvenRoas;
      adSpendPerOrder := f.adSpendPerOrder;
      profitPerOrder := f.profitPerOrder;
    }

    /** Runs the effect until it no longer changes one of its dependencies.
        One run suffices when the stored margin already matches the inputs;
        otherwise the second run, started by the margin change, settles it. */
    method Settle() returns (passes: nat)
      requires Defined(CurrentInputs())
      modifies this`grossMargin, this`revenue, this`cogs, this`profit,
        this`breakEvenRoas, this`adSpendPerOrder, this`profitPerOrder
      ensures CurrentInputs() == old(CurrentInputs())
      ensures old(Valid()) ==> Valid()
      ensures Settled()
      ensures passes >= 1 && Shows(Runs(CurrentInputs(), old(grossMargin), passes))
      ensures passes == if old(grossMargin) == GrossMargin(sellingPrice, costOfGoods) then 1 else 2
    {
      var rerun := true;
      passes := 0;
      while rerun
        invariant CurrentInputs() == old(CurrentInputs())
        invariant passes <= 2
        invariant passes == 0 ==> rerun && grossMargin == old(grossMargin)
        invariant passes > 0 ==> grossMargin == GrossMargin(sellingPrice, costOfGoods)
        invariant passes == 1 ==> (rerun <==> old(grossMargin) != grossMargin)
        invariant passes == 2 ==> !rerun && old(grossMargin) != grossMargin
        invariant !rerun ==> Settled()
        invariant passes > 0 ==> Shows(Runs(CurrentInputs(), old(grossMargin), passes))
        decreases (if rerun then 1 else 0) + (if grossMargin == GrossMargin(sellingPrice, costOfGoods) then 0 else 1)
      {
        rerun := Effect();
        if passes > 0 {
          RunsAppend(CurrentInputs(), old(grossMargin), passes);
        }
        passes := passes + 1;
      }
    }
  }

  /** Mounting the component: from the seeded state one run of the effect
      settles it, replacing the rounded per-order figures by 100/3 and 50/3. */
  method Mount() returns (c: RoasCalculator, passes: nat)
    ensures fresh(c)
    ensures c.Valid() && c.CurrentInputs() == Seeded()
    ensures c.Settled() && passes == 1
    ensures c.adSpendPerOrder == 100.0 / 3.0 && c.profitPerOrder == 50.0 / 3.0
  {
    c := new RoasCalculator();
    passes := c.Settle();
    SeededFigures();
  }

  /** After mounting, editing the selling price from 100 to 200 leaves, after
      one run, COGS computed from the old 50% margin (19500 instead of 9750);
      the run it triggers corrects it and triggers no further run. */
  method StaleAfterPriceEdit() returns (staleCogs: real, firstRerun: bool, settledCogs: real, secondRerun: bool)
    ensures staleCogs == 19500.0 && firstRerun
    ensures settledCogs == 9750.0 && !secondRerun
  {
    var c, _ := Mount();
    c.SetSellingPrice(200.0);
    var edited := Inputs(13000.0, 3.0, 200.0, 50.0, 100.0);
    assert c.CurrentInputs() == edited;
    assert GrossMargin(200.0, 50.0) == 75.0;
    firstRerun := c.Effect();
    assert c.cogs == EffectRun(edited, 50.0).cogs == 39000.0 * (1.0 - 50.0 / 100.0);
    staleCogs := c.cogs;
    secondRerun := c.Effect();
    assert c.cogs == EffectRun(edited, 75.0).cogs == 39000.0 * (1.0 - 75.0 / 100.0);
    settledCogs := c.cogs;
  }
}

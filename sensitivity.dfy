/** The sensitivity engine: each product of the price table has its regional price
    shocked by -10% and by +10% on a copy of the table, the optimizer is re-run on
    the copy, and the changes in profit per barrel are ranked by size. */
module Sensitivity {
  import opened Frames
  import opened Optimizer

  /** The shocks, in the order they are applied. */
  const Deltas: seq<real> := [-0.1, 0.1]

  /** A labelled change in profit per barrel. */
  datatype Effect = Effect(title: string, impact: real)

  /** The label of a shock: the product, a space, and "+10%" for a rise or
      "-10%" otherwise. */
  function Label(product: string, d: real): (l: string)
    ensures |l| == |product| + 5
    ensures l[..|product|] == product
    ensures l[|product|..] == if d > 0.0 then " +10%" else " -10%"
  {
    product + " " + (if d > 0.0 then "+10%" else "-10%")
  }

  /** The table's Product column, one entry per row. */
  function Products(t: PriceTable): seq<string>
  {
    seq(|t.rows|, i requires 0 <= i < |t.rows| => t.rows[i].product)
  }

  /** A price cell times a factor: an empty cell stays empty and a filled one
      stays filled, and a factor of 1 changes nothing. */
  function Scale(v: Option<real>, factor: real): (r: Option<real>)
    ensures r.Some? <==> v.Some?
    ensures factor == 1.0 ==> r == v
  {
    if v.Some? then Some(v.value * factor) else None
  }

  // ---------------------------------------------------------------------------
  // Shocks
  // ---------------------------------------------------------------------------

  /** The price table with every region cell of `product`'s rows set to its first
      row's region cell times 1 + d. Only those cells change. */
  function Shock(t: PriceTable, product: string, region: string, d: real): (s: PriceTable)
    ensures region in t.columns ==> s.columns == t.columns
    ensures |s.rows| == |t.rows|
    ensures forall i :: 0 <= i < |t.rows| ==> s.rows[i].product == t.rows[i].product
    ensures forall i :: 0 <= i < |t.rows| && t.rows[i].product != product ==> s.rows[i] == t.rows[i]
    ensures forall i :: 0 <= i < |t.rows| && t.rows[i].product == product ==>
      CellAt(s.rows[i], region) == Scale(FirstCell(t.rows, product, region), 1.0 + d)
    ensures forall i, c :: 0 <= i < |t.rows| && c != region ==> CellAt(s.rows[i], c) == CellAt(t.rows[i], c)
  {
    WithProductCells(t, product, region, Scale(FirstCell(t.rows, product, region), 1.0 + d))
  }

  /** The change in profit per barrel, against `base`, when `product` is shocked by d. */
  function Impact(assay: Assay, t: PriceTable, region: string, freightCost: real, base: real, product: string, d: real): real
    requires TotalVolume(assay.rows) != 0.0
  {
    Evaluate(assay, Shock(t, product, region, d), region, freightCost, DefaultBaseCost).profitPerBbl - base
  }

  function ShockEffect(assay: Assay, t: PriceTable, region: string, freightCost: real, base: real, product: string, d: real): Effect
    requires TotalVolume(assay.rows) != 0.0
  {
    Effect(Label(product, d), Impact(assay, t, region, freightCost, base, product, d))
  }

  /** The effects collected for `products` before ranking: for each product in
      order, its -10% effect and then its +10% effect (see CollectOrder). */
  function Collect(assay: Assay, t: PriceTable, region: string, freightCost: real, base: real, products: seq<string>): (es: seq<Effect>)
    requires TotalVolume(assay.rows) != 0.0
    ensures |es| == 2 * |products|
  {
    seq(2 * |products|, k requires 0 <= k < 2 * |products| =>
      ShockEffect(assay, t, region, freightCost, base, products[k / 2], Deltas[k % 2]))
  }

  lemma CollectOrder(assay: Assay, t: PriceTable, region: string, freightCost: real, base: real, products: seq<string>)
    requires TotalVolume(assay.rows) != 0.0
    ensures forall i :: 0 <= i < |products| ==>
      Collect(assay, t, region, freightCost, base, products)[2 * i] ==
        ShockEffect(assay, t, region, freightCost, base, products[i], Deltas[0]) &&
      Collect(assay, t, region, freightCost, base, products)[2 * i + 1] ==
        ShockEffect(assay, t, region, freightCost, base, products[i], Deltas[1])
  {
    var es := Collect(assay, t, region, freightCost, base, products);
    forall i | 0 <= i < |products|
      ensures es[2 * i] == ShockEffect(assay, t, region, freightCost, base, products[i], Deltas[0])
      ensures es[2 * i + 1] == ShockEffect(assay, t, region, freightCost, base, products[i], Deltas[1])
    {
      assert (2 * i) / 2 == i && (2 * i) % 2 == 0;
      assert (2 * i + 1) / 2 == i && (2 * i + 1) % 2 == 1;
    }
  }

  /** The labels of the two shocks of a product. */
  lemma ShockLabels(product: string)
    ensures Label(product, Deltas[0]) == product + " -10%"
    ensures Label(product, Deltas[1]) == product + " +10%"
  {
    assert product + " " + "-10%" == product + " -10%";
    assert product + " " + "+10%" == product + " +10%";
  }

  /** Each product's two effects are titled "<product> -10%" and "<product> +10%". */
  lemma CollectTitles(assay: Assay, t: PriceTable, region: string, freightCost: real, base: real, products: seq<string>)
    requires TotalVolume(assay.rows) != 0.0
    ensures forall i :: 0 <= i < |products| ==>
      Collect(assay, t, region, freightCost, base, products)[2 * i].title == products[i] + " -10%" &&
      Collect(assay, t, region, freightCost, base, products)[2 * i + 1].title == products[i] + " +10%"
  {
    var es := Collect(assay, t, region, freightCost, base, products);
    forall i | 0 <= i < |products|
      ensures es[2 * i].title == products[i] + " -10%"
      ensures es[2 * i + 1].title == products[i] + " +10%"
    {
      assert (2 * i) / 2 == i && (2 * i) % 2 == 0;
      assert (2 * i + 1) / 2 == i && (2 * i + 1) % 2 == 1;
      ShockLabels(products[i]);
    }
  }

  /** Collecting one more product appends its two effects. */
  lemma CollectSnoc(assay: Assay, t: PriceTable, region: string, freightCost: real, base: real, products: seq<string>, i: nat)
    requires TotalVolume(assay.rows) != 0.0
    requires i < |products|
    ensures Collect(assay, t, region, freightCost, base, products[..i + 1]) ==
      Collect(assay, t, region, freightCost, base, products[..i]) +
      Collect(assay, t, region, freightCost, base, [products[i]])
  {
    var whole := Collect(assay, t, region, freightCost, base, products[..i + 1]);
    var before := Collect(assay, t, region, freightCost, base, products[..i]);
    var last := Collect(assay, t, region, freightCost, base, [products[i]]);
    forall k | 0 <= k < |whole| ensures whole[k] == (before + last)[k] {
      if k < 2 * i {
        assert products[..i + 1][k / 2] == products[..i][k / 2];
      } else {
        assert k / 2 == i && (k - 2 * i) / 2 == 0 && (k - 2 * i) % 2 == k % 2;
      }
    }
  }

  // ---------------------------------------------------------------------------
  // Ranking: a stable sort by descending absolute impact
  // ---------------------------------------------------------------------------

  function AbsImpact(e: Effect): real
  {
    if e.impact < 0.0 then -e.impact else e.impact
  }

  predicate RankedByAbsImpact(es: seq<Effect>)
  {
    forall i, j :: 0 <= i < j < |es| ==> AbsImpact(es[i]) >= AbsImpact(es[j])
  }

  /** The effects whose absolute impact is k, in their order. */
  function WithAbsImpact(es: seq<Effect>, k: real): seq<Effect>
  {
    if es == [] then []
    else (if AbsImpact(es[0]) == k then [es[0]] else []) + WithAbsImpact(es[1..], k)
  }

  /** `e` placed into a sequence ahead of the first effect whose absolute impact
      is not larger than its own: the effects are those of `es` and `e`, none lost
      and none repeated. */
  function InsertByAbsImpact(e: Effect, es: seq<Effect>): (r: seq<Effect>)
    ensures |r| == |es| + 1
    ensures multiset(r) == multiset(es) + multiset{e}
    decreases |es|
  {
    if es == [] || AbsImpact(es[0]) <= AbsImpact(e) then [e] + es
    else
      assert es == [es[0]] + es[1..];
      [es[0]] + InsertByAbsImpact(e, es[1..])
  }

  /** An effect no larger than the head of a ranked sequence can follow it. */
  lemma RankedCons(x: Effect, es: seq<Effect>)
    requires RankedByAbsImpact(es)
    requires forall y :: y in multiset(es) ==> AbsImpact(x) >= AbsImpact(y)
    ensures RankedByAbsImpact([x] + es)
  {
    var r := [x] + es;
    forall i, j | 0 <= i < j < |r| ensures AbsImpact(r[i]) >= AbsImpact(r[j]) {
      assert r[j] == es[j - 1];
      assert es[j - 1] in multiset(es);
      if i > 0 {
        assert r[i] == es[i - 1];
      }
    }
  }

  lemma {:induction false} InsertKeepsRanking(e: Effect, es: seq<Effect>)
    requires RankedByAbsImpact(es)
    ensures RankedByAbsImpact(InsertByAbsImpact(e, es))
    decreases |es|
  {
    if es == [] || AbsImpact(es[0]) <= AbsImpact(e) {
      forall y | y in multiset(es) ensures AbsImpact(e) >= AbsImpact(y) {
        var m :| 0 <= m < |es| && es[m] == y;
        assert AbsImpact(es[0]) >= AbsImpact(es[m]) || m == 0;
      }
      RankedCons(e, es);
    } else {
      var rest := InsertByAbsImpact(e, es[1..]);
      InsertKeepsRanking(e, es[1..]);
      forall y | y in multiset(rest) ensures AbsImpact(es[0]) >= AbsImpact(y) {
        if y != e {
          var m :| 0 <= m < |es[1..]| && es[1..][m] == y;
          assert es[m + 1] == y;
        }
      }
      RankedCons(es[0], rest);
    }
  }

  /** Inserting keeps the order among effects of equal absolute impact, with `e`
      first among its equals. */
  lemma {:induction false} InsertIsStable(e: Effect, es: seq<Effect>, k: real)
    ensures WithAbsImpact(InsertByAbsImpact(e, es), k) ==
      (if AbsImpact(e) == k then [e] + WithAbsImpact(es, k) else WithAbsImpact(es, k))
    decreases |es|
  {
    if es == [] || AbsImpact(es[0]) <= AbsImpact(e) {
      assert ([e] + es)[1..] == es;
    } else {
      var rest := InsertByAbsImpact(e, es[1..]);
      InsertIsStable(e, es[1..], k);
      assert ([es[0]] + rest)[1..] == rest;
    }
  }

  /** One insertion step of the sort keeps its three properties. */
  lemma InsertStep(x: Effect, tail: seq<Effect>, sorted: seq<Effect>)
    requires RankedByAbsImpact(sorted)
    requires multiset(sorted) == multiset(tail)
    requires forall k :: WithAbsImpact(sorted, k) == WithAbsImpact(tail, k)
    ensures RankedByAbsImpact(InsertByAbsImpact(x, sorted))
    ensures multiset(InsertByAbsImpact(x, sorted)) == multiset([x] + tail)
    ensures forall k :: WithAbsImpact(InsertByAbsImpact(x, sorted), k) == WithAbsImpact([x] + tail, k)
  {
    InsertKeepsRanking(x, sorted);
    assert ([x] + tail)[1..] == tail;
    forall k ensures WithAbsImpact(InsertByAbsImpact(x, sorted), k) == WithAbsImpact([x] + tail, k) {
      InsertIsStable(x, sorted, k);
    }
  }

  /** Python's stable `sort(key=abs impact, reverse=True)`: ranked by descending
      absolute impact, a permutation of its input, and keeping the input order
      among effects of equal absolute impact. */
  function SortByAbsImpact(es: seq<Effect>): (r: seq<Effect>)
    ensures RankedByAbsImpact(r)
    ensures multiset(r) == multiset(es)
    ensures forall k :: WithAbsImpact(r, k) == WithAbsImpact(es, k)
    decreases |es|
  {
    if es == [] then []
    else
      var sorted := SortByAbsImpact(es[1..]);
      InsertStep(es[0], es[1..], sorted);
      assert es == [es[0]] + es[1..];
      InsertByAbsImpact(es[0], sorted)
  }

  // ---------------------------------------------------------------------------
  // The analysis
  // ---------------------------------------------------------------------------

  /** What run_sensitivity_analysis computes before drawing its chart. The Product
      column is read before anything else, so a table without one fails with that
      KeyError; otherwise the result is the base run's error, or the ranked effects
      of every shock. */
  function Sensitivity(assay: Assay, t: PriceTable, region: string, freightCost: real): (r: Result<seq<Effect>, OptError>)
    ensures r.Failure? <==> Optimize(assay, t, region, freightCost, DefaultBaseCost).Failure?
    ensures "Product" !in t.columns ==> r == Failure(MissingProductColumn)
    ensures "Product" in t.columns && r.Failure? ==>
      r.error == Optimize(assay, t, region, freightCost, DefaultBaseCost).error
    ensures r.Success? ==> |r.value| == 2 * |t.rows| && RankedByAbsImpact(r.value)
  {
    if "Product" !in t.columns then Failure(MissingProductColumn)
    else match Optimize(assay, t, region, freightCost, DefaultBaseCost)
    case Failure(e) => Failure(e)
    case Success(base) =>
      var effects := Collect(assay, t, region, freightCost, base.profitPerBbl, Products(t));
      assert |multiset(SortByAbsImpact(effects))| == |effects|;
      Success(SortByAbsImpact(effects))
  }

  /** A shocked copy of a valid table is valid, so every re-run succeeds. */
  lemma ShockedRunSucceeds(assay: Assay, t: PriceTable, region: string, freightCost: real, product: string, d: real)
    requires Validate(assay, t, region) == None
    requires TotalVolume(assay.rows) != 0.0
    ensures Optimize(assay, Shock(t, product, region, d), region, freightCost, DefaultBaseCost) ==
      Success(Evaluate(assay, Shock(t, product, region, d), region, freightCost, DefaultBaseCost))
  {
  }

  /** A shock's impact is what re-running the optimizer on the shocked copy
      returns, less the base; once the inputs are valid that re-run never fails. */
  lemma ImpactIsRerun(assay: Assay, t: PriceTable, region: string, freightCost: real, base: real, product: string, d: real)
    requires Validate(assay, t, region) == None
    requires TotalVolume(assay.rows) != 0.0
    ensures Optimize(assay, Shock(t, product, region, d), region, freightCost, DefaultBaseCost).Success?
    ensures Impact(assay, t, region, freightCost, base, product, d) ==
      Optimize(assay, Shock(t, product, region, d), region, freightCost, DefaultBaseCost).value.profitPerBbl - base
  {
    ShockedRunSucceeds(assay, t, region, freightCost, product, d);
  }

  /** The list the analysis loops over has one entry per price row, and a
      product is in it exactly when some price row has it. */
  lemma ProductsListed(t: PriceTable)
    ensures |Products(t)| == |t.rows|
    ensures forall q :: q in Products(t) <==> HasProduct(t.rows, q)
  {
    forall q | HasProduct(t.rows, q) ensures q in Products(t) {
      var i :| 0 <= i < |t.rows| && t.rows[i].product == q;
      assert Products(t)[i] == q;
    }
  }

  /** One pass of the inner loop: `product`'s price in a fresh copy of the price
      frame is set to `originalPrice` times 1 + d, and the optimizer is re-run on
      the copy. The effect is labelled with the product and the shock's sign. */
  method RunShock(assay: AssayFrame, prices: PriceFrame, region: string, freightCost: real, base: real,
                  product: string, originalPrice: Option<real>, d: real) returns (e: Effect)
    requires Validate(assay.Table(), prices.Table(), region) == None
    requires TotalVolume(assay.rows) != 0.0
    requires originalPrice == FirstCell(prices.rows, product, region)
    modifies assay
    ensures e == ShockEffect(old(assay.Table()), prices.Table(), region, freightCost, base, product, d)
    ensures assay.Table() == old(assay.Table())
    ensures assay.allocation == Some(Allocations(assay.rows))
  {
    var modified := prices.Copy();
    modified.AssignProductCells(product, region, Scale(originalPrice, 1.0 + d));
    assert modified.Table() == Shock(prices.Table(), product, region, d);
    ShockedRunSucceeds(assay.Table(), prices.Table(), region, freightCost, product, d);
    var run := RunOptimization(assay, modified, region, freightCost, DefaultBaseCost);
    e := Effect(Label(product, d), run.value.profitPerBbl - base);
  }

  /** The inner loop of run_sensitivity_analysis for one product: its price as
      read before any shock, then each shock of Deltas applied in turn. */
  method RunProductShocks(assay: AssayFrame, prices: PriceFrame, region: string, freightCost: real, base: real,
                          product: string) returns (es: seq<Effect>)
    requires Validate(assay.Table(), prices.Table(), region) == None
    requires TotalVolume(assay.rows) != 0.0
    modifies assay
    ensures es == Collect(old(assay.Table()), prices.Table(), region, freightCost, base, [product])
    ensures assay.Table() == old(assay.Table())
    ensures assay.allocation == Some(Allocations(assay.rows))
  {
    ghost var a0 := assay.Table();
    ghost var t0 := prices.Table();
    ghost var all := Collect(a0, t0, region, freightCost, base, [product]);
    var originalPrice := FirstCell(prices.rows, product, region);
    es := [];
    for j := 0 to |Deltas|
      invariant assay.Table() == a0
      invariant j > 0 ==> assay.allocation == Some(Allocations(a0.rows))
      invariant es == all[..j]
    {
      var effect := RunShock(assay, prices, region, freightCost, base, product, originalPrice, Deltas[j]);
      assert j / 2 == 0 && j % 2 == j;
      assert all[..j + 1] == all[..j] + [effect];
      es := es + [effect];
    }
    assert all[..|Deltas|] == all;
  }

  lemma SensitivityOfFailure(assay: Assay, t: PriceTable, region: string, freightCost: real)
    requires "Product" in t.columns
    requires Optimize(assay, t, region, freightCost, DefaultBaseCost).Failure?
    ensures Sensitivity(assay, t, region, freightCost) == Failure(Optimize(assay, t, region, freightCost, DefaultBaseCost).error)
  {
  }

  lemma SensitivityOfSuccess(assay: Assay, t: PriceTable, region: string, freightCost: real)
    requires Optimize(assay, t, region, freightCost, DefaultBaseCost).Success?
    ensures TotalVolume(assay.rows) != 0.0
    ensures Sensitivity(assay, t, region, freightCost) ==
      Success(SortByAbsImpact(Collect(assay, t, region, freightCost,
        Optimize(assay, t, region, freightCost, DefaultBaseCost).value.profitPerBbl, Products(t))))
  {
  }

  /** A successful analysis returns the collected effects, stably ranked by
      descending absolute impact. */
  lemma SensitivityRanksCollected(assay: Assay, t: PriceTable, region: string, freightCost: real)
    requires Optimize(assay, t, region, freightCost, DefaultBaseCost).Success?
    ensures TotalVolume(assay.rows) != 0.0
    ensures Sensitivity(assay, t, region, freightCost).Success?
    ensures var ranked := Sensitivity(assay, t, region, freightCost).value;
      var es := Collect(assay, t, region, freightCost,
                        Optimize(assay, t, region, freightCost, DefaultBaseCost).value.profitPerBbl, Products(t));
      RankedByAbsImpact(ranked) && multiset(ranked) == multiset(es) &&
      forall k :: WithAbsImpact(ranked, k) == WithAbsImpact(es, k)
  {
    SensitivityOfSuccess(assay, t, region, freightCost);
  }

  /** The loop of run_sensitivity_analysis over the price table's Product column,
      collecting both shocks of each row's product in turn. */
  method RunAllShocks(assay: AssayFrame, prices: PriceFrame, region: string, freightCost: real, base: real)
    returns (effects: seq<Effect>)
    requires Validate(assay.Table(), prices.Table(), region) == None
    requires TotalVolume(assay.rows) != 0.0
    requires assay.allocation == Some(Allocations(assay.rows))
    modifies assay
    ensures effects == Collect(old(assay.Table()), prices.Table(), region, freightCost, base, Products(prices.Table()))
    ensures assay.Table() == old(assay.Table())
    ensures assay.allocation == Some(Allocations(assay.rows))
  {
    var products := Products(prices.Table());
    ghost var a0 := assay.Table();
    ghost var t0 := prices.Table();
    effects := [];
    for i := 0 to |products|
      invariant assay.Table() == a0
      invariant assay.allocation == Some(Allocations(a0.rows))
      invariant effects == Collect(a0, t0, region, freightCost, base, products[..i])
    {
      var shocks := RunProductShocks(assay, prices, region, freightCost, base, products[i]);
      CollectSnoc(a0, t0, region, freightCost, base, products, i);
      effects := effects + shocks;
    }
    assert products[..|products|] == products;
  }

  /** run_sensitivity_analysis on the caller's frames. Each shock is applied to a
      fresh copy of the price frame, so the caller's price frame is never written;
      the re-runs assign the assay's "Allocated Product" column in place. */
  method RunSensitivityAnalysis(assay: AssayFrame, prices: PriceFrame, region: string, freightCost: real)
    returns (r: Result<seq<Effect>, OptError>)
    modifies assay
    ensures r == Sensitivity(old(assay.Table()), prices.Table(), region, freightCost)
    ensures assay.Table() == old(assay.Table())
    ensures assay.allocation == if r.Success? then Some(Allocations(assay.rows)) else old(assay.allocation)
  {
    if "Product" !in prices.columns {
      return Failure(MissingProductColumn);
    }
    var baseRun := RunOptimization(assay, prices, region, freightCost, DefaultBaseCost);
    if baseRun.Failure? {
      SensitivityOfFailure(assay.Table(), prices.Table(), region, freightCost);
      return Failure(baseRun.error);
    }
    SensitivityOfSuccess(assay.Table(), prices.Table(), region, freightCost);
    var effects := RunAllShocks(assay, prices, region, freightCost, baseRun.value.profitPerBbl);
    r := Success(SortByAbsImpact(effects));
  }
}

/** What a price shock does to profit per barrel: nothing for a product no cut
    is allocated to, and, with unique Product keys, exactly the shock times the
    product's price times its share of the assay's volume. */
module Impacts {
  import opened Frames
  import opened Optimizer
  import opened Sensitivity

  // ---------------------------------------------------------------------------
  // Lookups after an assignment
  // ---------------------------------------------------------------------------

  /** Assigning `product`'s cells leaves every other product's matches alone. */
  lemma {:induction false} MatchesOfOtherProduct(rows: seq<PriceRow>, product: string, region: string, v: Option<real>, other: string)
    requires other != product
    ensures Matches(AssignRows(rows, product, region, v), other, region) == Matches(rows, other, region)
    decreases |rows|
  {
    if rows != [] {
      var written := AssignRows(rows, product, region, v);
      assert written[1..] == AssignRows(rows[1..], product, region, v);
      MatchesOfOtherProduct(rows[1..], product, region, v, other);
    }
  }

  /** After the assignment, a lookup of `product` finds `v` when the table has
      the product; every other lookup is as before. */
  lemma {:induction false} FirstCellAfterAssign(rows: seq<PriceRow>, product: string, region: string, v: Option<real>, q: string)
    ensures FirstCell(AssignRows(rows, product, region, v), q, region) ==
      if q == product && HasProduct(rows, product) then v else FirstCell(rows, q, region)
    decreases |rows|
  {
    if rows != [] {
      var written := AssignRows(rows, product, region, v);
      assert written[1..] == AssignRows(rows[1..], product, region, v);
      FirstCellAfterAssign(rows[1..], product, region, v, q);
      if rows[0].product != product {
        assert HasProduct(rows, product) == HasProduct(rows[1..], product) by {
          if HasProduct(rows, product) {
            var i :| 0 <= i < |rows| && rows[i].product == product;
            assert rows[1..][i - 1] == rows[i];
          }
          if HasProduct(rows[1..], product) {
            var i :| 0 <= i < |rows[1..]| && rows[1..][i].product == product;
            assert rows[i + 1] == rows[1..][i];
          }
        }
      } else {
        assert HasProduct(rows, product) by { assert rows[0].product == product; }
      }
    }
  }

  /** pandas' fillna(0) of a scaled cell is the scaled filled cell. */
  lemma FillScale(v: Option<real>, factor: real)
    ensures Fill(Scale(v, factor)) == factor * Fill(v)
  {
  }

  // ---------------------------------------------------------------------------
  // Unexposed products
  // ---------------------------------------------------------------------------

  /** The join of rows none of which is allocated to `product` does not see an
      assignment to `product`'s price cells. */
  lemma {:induction false} JoinUnexposed(rows: seq<AssayRow>, products: seq<string>, prices: seq<PriceRow>,
                                         product: string, region: string, v: Option<real>, cost: real)
    requires |products| == |rows|
    requires product !in products
    ensures Join(rows, products, AssignRows(prices, product, region, v), region, cost) ==
      Join(rows, products, prices, region, cost)
    decreases |rows|
  {
    if rows != [] {
      assert products[0] in products;
      MatchesOfOtherProduct(prices, product, region, v, products[0]);
      JoinUnexposed(rows[1..], products[1..], prices, product, region, v, cost);
    }
  }

  /** A product that no cut is allocated to has impact 0, whatever the shock. */
  lemma NoExposureNoImpact(assay: Assay, t: PriceTable, region: string, freightCost: real, product: string, d: real)
    requires TotalVolume(assay.rows) != 0.0
    requires product !in Allocations(assay.rows)
    ensures Impact(assay, t, region, freightCost,
                   Evaluate(assay, t, region, freightCost, DefaultBaseCost).profitPerBbl, product, d) == 0.0
  {
    var v := Scale(FirstCell(t.rows, product, region), 1.0 + d);
    var cost := DefaultBaseCost + freightCost;
    JoinUnexposed(assay.rows, Allocations(assay.rows), t.rows, product, region, v, cost);
    EvaluatedSlate(assay, t, region, freightCost, DefaultBaseCost);
    EvaluatedSlate(assay, Shock(t, product, region, d), region, freightCost, DefaultBaseCost);
  }

  /** In a successful analysis, both effects of a price row whose product no cut
      is allocated to have impact 0. */
  lemma UnexposedEffectsAreZero(assay: Assay, t: PriceTable, region: string, freightCost: real)
    requires Optimize(assay, t, region, freightCost, DefaultBaseCost).Success?
    ensures TotalVolume(assay.rows) != 0.0
    ensures var es := Collect(assay, t, region, freightCost,
                              Optimize(assay, t, region, freightCost, DefaultBaseCost).value.profitPerBbl, Products(t));
      forall k :: 0 <= k < |es| && t.rows[k / 2].product !in Allocations(assay.rows) ==> es[k].impact == 0.0
  {
    var es := Collect(assay, t, region, freightCost,
                      Optimize(assay, t, region, freightCost, DefaultBaseCost).value.profitPerBbl, Products(t));
    forall k | 0 <= k < |es| && t.rows[k / 2].product !in Allocations(assay.rows)
      ensures es[k].impact == 0.0
    {
      NoExposureNoImpact(assay, t, region, freightCost, t.rows[k / 2].product, Deltas[k % 2]);
    }
  }

  // ---------------------------------------------------------------------------
  // The closed form of an impact
  // ---------------------------------------------------------------------------

  /** The volume of the rows allocated to `product`. */
  function ExposedVolume(rows: seq<AssayRow>, products: seq<string>, product: string): real
    requires |products| == |rows|
  {
    if rows == [] then 0.0
    else (if products[0] == product then rows[0].volume else 0.0) + ExposedVolume(rows[1..], products[1..], product)
  }

  /** The sum of k times the volume of each row allocated to `product`: what a
      price rise of k on `product` adds to the sales value. */
  function ExposedShift(rows: seq<AssayRow>, products: seq<string>, product: string, k: real): real
    requires |products| == |rows|
  {
    if rows == [] then 0.0
    else (if products[0] == product then k * rows[0].volume else 0.0) + ExposedShift(rows[1..], products[1..], product, k)
  }

  lemma Distribute(k: real, x: real, y: real)
    ensures k * (x + y) == k * x + k * y
    ensures (x + y) * k == x * k + y * k
  {
  }

  /** Each product's region price, in order. */
  function PriceList(products: seq<string>, prices: seq<PriceRow>, region: string): (ps: seq<real>)
    ensures |ps| == |products|
    ensures forall i :: 0 <= i < |products| ==> ps[i] == RegionPrice(prices, products[i], region)
  {
    seq(|products|, i requires 0 <= i < |products| => RegionPrice(prices, products[i], region))
  }

  /** The volumes of the rows weighted by the prices `ps`. */
  function Dot(rows: seq<AssayRow>, ps: seq<real>): real
    requires |ps| == |rows|
  {
    if rows == [] then 0.0 else ps[0] * rows[0].volume + Dot(rows[1..], ps[1..])
  }

  lemma {:induction false} SalesIsDot(rows: seq<AssayRow>, products: seq<string>, prices: seq<PriceRow>, region: string)
    requires |products| == |rows|
    ensures SalesValue(rows, products, prices, region) == Dot(rows, PriceList(products, prices, region))
    decreases |rows|
  {
    if rows != [] {
      SalesIsDot(rows[1..], products[1..], prices, region);
      assert PriceList(products, prices, region)[1..] == PriceList(products[1..], prices, region);
    }
  }

  /** Raising the price of every row allocated to `product` by k raises the
      weighted sum by the exposed shift. */
  lemma {:induction false} DotShift(rows: seq<AssayRow>, products: seq<string>, ps: seq<real>, qs: seq<real>, product: string, k: real)
    requires |products| == |rows| && |ps| == |rows| && |qs| == |rows|
    requires forall i :: 0 <= i < |rows| ==> qs[i] == ps[i] + if products[i] == product then k else 0.0
    ensures Dot(rows, qs) == Dot(rows, ps) + ExposedShift(rows, products, product, k)
    decreases |rows|
  {
    if rows != [] {
      forall i | 0 <= i < |rows| - 1
        ensures qs[1..][i] == ps[1..][i] + if products[1..][i] == product then k else 0.0
      {
        assert qs[1..][i] == qs[i + 1] && ps[1..][i] == ps[i + 1] && products[1..][i] == products[i + 1];
      }
      DotShift(rows[1..], products[1..], ps[1..], qs[1..], product, k);
      if products[0] == product {
        Distribute(rows[0].volume, ps[0], k);
      }
    }
  }

  /** When `shocked` prices `product` k above its price in `prices` and every
      other product as `prices` does, the sales value rises by the exposed shift. */
  lemma SalesShift(rows: seq<AssayRow>, products: seq<string>, prices: seq<PriceRow>, shocked: seq<PriceRow>,
                   product: string, region: string, k: real)
    requires |products| == |rows|
    requires forall q :: RegionPrice(shocked, q, region) ==
                           if q == product then RegionPrice(prices, product, region) + k else RegionPrice(prices, q, region)
    ensures SalesValue(rows, products, shocked, region) ==
      SalesValue(rows, products, prices, region) + ExposedShift(rows, products, product, k)
  {
    SalesIsDot(rows, products, prices, region);
    SalesIsDot(rows, products, shocked, region);
    var ps, qs := PriceList(products, prices, region), PriceList(products, shocked, region);
    forall i | 0 <= i < |rows|
      ensures qs[i] == ps[i] + if products[i] == product then k else 0.0
    {
      assert RegionPrice(shocked, products[i], region) ==
        if products[i] == product then RegionPrice(prices, product, region) + k else RegionPrice(prices, products[i], region);
    }
    DotShift(rows, products, ps, qs, product, k);
  }

  /** The exposed shift is k times the exposed volume. */
  lemma {:induction false} ExposedShiftIsScaled(rows: seq<AssayRow>, products: seq<string>, product: string, k: real)
    requires |products| == |rows|
    ensures ExposedShift(rows, products, product, k) == k * ExposedVolume(rows, products, product)
    decreases |rows|
  {
    if rows != [] {
      ExposedShiftIsScaled(rows[1..], products[1..], product, k);
      var head := if products[0] == product then rows[0].volume else 0.0;
      Distribute(k, head, ExposedVolume(rows[1..], products[1..], product));
    }
  }

  lemma RiseOf(p: real, d: real)
    ensures (1.0 + d) * p == p + d * p
  {
  }

  /** Shocking `product` by d raises its region price by d times that price and
      leaves every other product's region price alone. */
  lemma ShockedRegionPrice(t: PriceTable, product: string, region: string, d: real, q: string)
    ensures RegionPrice(Shock(t, product, region, d).rows, q, region) ==
      if q == product then RegionPrice(t.rows, product, region) + d * RegionPrice(t.rows, product, region)
      else RegionPrice(t.rows, q, region)
  {
    var first := FirstCell(t.rows, product, region);
    var v := Scale(first, 1.0 + d);
    assert Shock(t, product, region, d).rows == AssignRows(t.rows, product, region, v);
    FirstCellAfterAssign(t.rows, product, region, v, q);
    if q == product {
      if HasProduct(t.rows, product) {
        FillScale(first, 1.0 + d);
        RiseOf(Fill(first), d);
      } else {
        NoMatches(t.rows, product, region);
      }
    }
  }

  /** Shocking `product` by d prices it at 1 + d times its price and every other
      product as before. */
  lemma ShockedPrices(t: PriceTable, product: string, region: string, d: real)
    ensures forall q :: RegionPrice(Shock(t, product, region, d).rows, q, region) ==
                          if q == product then RegionPrice(t.rows, product, region) + d * RegionPrice(t.rows, product, region)
                          else RegionPrice(t.rows, q, region)
  {
    forall q ensures RegionPrice(Shock(t, product, region, d).rows, q, region) ==
      if q == product then RegionPrice(t.rows, product, region) + d * RegionPrice(t.rows, product, region)
      else RegionPrice(t.rows, q, region)
    {
      ShockedRegionPrice(t, product, region, d, q);
    }
  }

  /** Raising the price of `product` by k raises the assay's revenue by the
      exposed shift. */
  lemma RevenueShift(rows: seq<AssayRow>, prices: seq<PriceRow>, shocked: seq<PriceRow>, product: string, region: string, k: real)
    requires forall q :: RegionPrice(shocked, q, region) ==
                           if q == product then RegionPrice(prices, product, region) + k else RegionPrice(prices, q, region)
    ensures Revenue(rows, shocked, region) ==
      Revenue(rows, prices, region) + ExposedShift(rows, Allocations(rows), product, k)
  {
    SalesShift(rows, Allocations(rows), prices, shocked, product, region, k);
  }

  /** Profit per barrel changes by the average of the change in sales value. */
  lemma ChangeOfAverage(rev: real, shiftedRev: real, shift: real, v: real, cost: real)
    requires v != 0.0
    requires shiftedRev == rev + shift
    ensures (shiftedRev / v - cost) - (rev / v - cost) == shift / v
  {
    assert (rev + shift) / v == rev / v + shift / v;
  }

  /** With unique Product keys in both tables, raising the price of `product` by
      k changes profit per barrel by k times its share of the volume. */
  lemma RepricedProfit(assay: Assay, t: PriceTable, s: PriceTable, region: string, freightCost: real, product: string, k: real)
    requires TotalVolume(assay.rows) != 0.0
    requires UniqueProducts(t.rows) && UniqueProducts(s.rows)
    requires forall q :: RegionPrice(s.rows, q, region) ==
                           if q == product then RegionPrice(t.rows, product, region) + k else RegionPrice(t.rows, q, region)
    ensures Evaluate(assay, s, region, freightCost, DefaultBaseCost).profitPerBbl -
            Evaluate(assay, t, region, freightCost, DefaultBaseCost).profitPerBbl ==
      ExposedShift(assay.rows, Allocations(assay.rows), product, k) / TotalVolume(assay.rows)
  {
    ProfitPerBarrelIsMargin(assay, t, region, freightCost, DefaultBaseCost);
    ProfitPerBarrelIsMargin(assay, s, region, freightCost, DefaultBaseCost);
    RevenueShift(assay.rows, t.rows, s.rows, product, region, k);
    ChangeOfAverage(Revenue(assay.rows, t.rows, region), Revenue(assay.rows, s.rows, region),
                    ExposedShift(assay.rows, Allocations(assay.rows), product, k),
                    TotalVolume(assay.rows), DefaultBaseCost + freightCost);
  }

  /** A shocked table keeps the Product column, so unique keys stay unique. */
  lemma ShockKeepsUnique(t: PriceTable, product: string, region: string, d: real)
    requires UniqueProducts(t.rows)
    ensures UniqueProducts(Shock(t, product, region, d).rows)
  {
  }

  /** With unique Product keys, shocking `product` by d changes profit per barrel
      by d times its region price on every barrel allocated to it, averaged over
      the assay's volume (ExposedShiftIsScaled: d times the price times the
      exposed volume). */
  lemma ImpactClosedForm(assay: Assay, t: PriceTable, region: string, freightCost: real, product: string, d: real)
    requires TotalVolume(assay.rows) != 0.0
    requires UniqueProducts(t.rows)
    ensures Impact(assay, t, region, freightCost,
                   Evaluate(assay, t, region, freightCost, DefaultBaseCost).profitPerBbl, product, d) ==
      ExposedShift(assay.rows, Allocations(assay.rows), product, d * RegionPrice(t.rows, product, region)) /
      TotalVolume(assay.rows)
  {
    ShockKeepsUnique(t, product, region, d);
    ShockedPrices(t, product, region, d);
    RepricedProfit(assay, t, Shock(t, product, region, d), region, freightCost, product, d * RegionPrice(t.rows, product, region));
  }

  /** The exposed shift of an opposite rise is the opposite shift. */
  lemma {:induction false} ExposedShiftOpposite(rows: seq<AssayRow>, products: seq<string>, product: string, k: real)
    requires |products| == |rows|
    ensures ExposedShift(rows, products, product, -k) == -ExposedShift(rows, products, product, k)
    decreases |rows|
  {
    if rows != [] {
      ExposedShiftOpposite(rows[1..], products[1..], product, k);
      Negation(k, rows[0].volume);
    }
  }

  lemma Negation(k: real, v: real)
    ensures (-k) * v == -(k * v)
  {
  }

  /** The per-barrel shifts of the two shocks are opposite. */
  lemma OppositeShares(rows: seq<AssayRow>, products: seq<string>, product: string, p: real, v: real)
    requires |products| == |rows|
    requires v != 0.0
    ensures ExposedShift(rows, products, product, Deltas[0] * p) / v ==
      -(ExposedShift(rows, products, product, Deltas[1] * p) / v)
  {
    assert Deltas[0] * p == -(Deltas[1] * p);
    ExposedShiftOpposite(rows, products, product, Deltas[1] * p);
  }

  /** With unique Product keys, the -10% and +10% shocks of a product move profit
      per barrel by opposite amounts. */
  lemma OpposedShocksCancel(assay: Assay, t: PriceTable, region: string, freightCost: real, product: string)
    requires TotalVolume(assay.rows) != 0.0
    requires UniqueProducts(t.rows)
    ensures var base := Evaluate(assay, t, region, freightCost, DefaultBaseCost).profitPerBbl;
      Impact(assay, t, region, freightCost, base, product, Deltas[0]) ==
      -Impact(assay, t, region, freightCost, base, product, Deltas[1])
  {
    var base := Evaluate(assay, t, region, freightCost, DefaultBaseCost).profitPerBbl;
    ImpactClosedForm(assay, t, region, freightCost, product, Deltas[0]);
    ImpactClosedForm(assay, t, region, freightCost, product, Deltas[1]);
    OppositeShares(assay.rows, Allocations(assay.rows), product, RegionPrice(t.rows, product, region), TotalVolume(assay.rows));
  }
}

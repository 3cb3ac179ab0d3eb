/** The worked example of the allocation model: a naphtha cut of 1000 bbl and a
    diesel cut of 2000 bbl, priced in a region at 90 for Gasoline and 80 for
    Diesel, with the default processing cost of 50 and no freight. */
module WorkedExample {
  import opened Frames
  import opened Optimizer
  import opened Sensitivity
  import opened Impacts

  const Region: string := "Gulf Coast"

  const ExampleAssay: Assay :=
    Assay({"Cut", "Volume"}, true, [AssayRow(Text("Naphtha"), 1000.0), AssayRow(Text("Diesel"), 2000.0)])

  const ExamplePrices: PriceTable :=
    PriceTable({"Product", Region},
               [PriceRow(Gasoline, map[Region := 90.0]), PriceRow(Diesel, map[Region := 80.0])])

  lemma ExampleAllocations()
    ensures Allocations(ExampleAssay.rows) == [Gasoline, Diesel]
  {
    assert Lower("Naphtha") == "naphtha";
    assert Lower("Diesel") == "diesel";
  }

  lemma ExamplePricesAreUnique()
    ensures UniqueProducts(ExamplePrices.rows)
  {
  }

  lemma ExampleRegionPrices()
    ensures RegionPrice(ExamplePrices.rows, Gasoline, Region) == 90.0
    ensures RegionPrice(ExamplePrices.rows, Diesel, Region) == 80.0
  {
    var rows := ExamplePrices.rows;
    assert |Gasoline| != |Diesel|;
    assert rows[1..] == [rows[1]] && rows[1..][1..] == [];
    assert FirstCell(rows[1..], Diesel, Region) == Some(80.0);
  }

  /** The slate prices the naphtha as Gasoline at 90 and the diesel as Diesel at
      80, for profits of 40000 and 60000 and 100000 / 3000 per barrel. */
  lemma ExampleSlate()
    ensures Optimize(ExampleAssay, ExamplePrices, Region, 0.0, DefaultBaseCost) ==
      Success(OptimizationResult(
        [SlateRow(Text("Naphtha"), Gasoline, 1000.0, 90.0, 40000.0),
         SlateRow(Text("Diesel"), Diesel, 2000.0, 80.0, 60000.0)],
        100000.0 / 3000.0, []))
  {
    ExampleAllocations();
    ExamplePricesAreUnique();
    ExampleRegionPrices();
    var rows, prices, cost := ExampleAssay.rows, ExamplePrices.rows, DefaultBaseCost + 0.0;
    var slate := [SlateRow(Text("Naphtha"), Gasoline, 1000.0, 90.0, 40000.0),
                  SlateRow(Text("Diesel"), Diesel, 2000.0, 80.0, 60000.0)];
    assert Join(rows, [Gasoline, Diesel], prices, Region, cost) == slate by {
      UniqueJoinRow(rows[0], Gasoline, prices, Region, cost);
      UniqueJoinRow(rows[1], Diesel, prices, Region, cost);
      assert rows[1..] == [rows[1]] && rows[1..][1..] == [];
      assert [Gasoline, Diesel][1..] == [Diesel];
      assert Join(rows[1..], [Diesel], prices, Region, cost) == [slate[1]] by {
        assert Join(rows[1..][1..], [Diesel][1..], prices, Region, cost) == [];
      }
    }
    assert TotalVolume(rows) == 3000.0 by {
      assert rows[1..] == [rows[1]] && rows[1..][1..] == [];
    }
    assert TotalProfit(slate) == 100000.0 by {
      assert slate[1..] == [slate[1]] && slate[1..][1..] == [];
      assert TotalProfit(slate[1..]) == 60000.0 by {
        assert TotalProfit(slate[1..][1..]) == 0.0;
      }
    }
    assert Unmatched(slate) == [] by {
      assert slate[..1] == [slate[0]] && slate[..1][..0] == [];
      assert Unmatched(slate[..1]) == [] by {
        assert Unmatched(slate[..1][..0]) == [];
      }
    }
  }

  /** Raising the Diesel price by 10% (80 to 88) raises profit per barrel by
      0.1 * 80 * 2000 / 3000 = 16 / 3. */
  lemma ExampleDieselShock()
    ensures Impact(ExampleAssay, ExamplePrices, Region, 0.0,
                   Evaluate(ExampleAssay, ExamplePrices, Region, 0.0, DefaultBaseCost).profitPerBbl, Diesel, 0.1) ==
      16.0 / 3.0
  {
    ExamplePricesAreUnique();
    ExampleRegionPrices();
    ExampleDieselExposure();
    ImpactClosedForm(ExampleAssay, ExamplePrices, Region, 0.0, Diesel, 0.1);
  }

  /** Raising Diesel by 8 raises the example's sales by 8 on each of its 2000 bbl. */
  lemma ExampleDieselExposure()
    ensures TotalVolume(ExampleAssay.rows) == 3000.0
    ensures ExposedShift(ExampleAssay.rows, Allocations(ExampleAssay.rows), Diesel, 0.1 * 80.0) == 16000.0
  {
    ExampleAllocations();
    var rows := ExampleAssay.rows;
    var products := [Gasoline, Diesel];
    assert |Gasoline| != |Diesel|;
    assert rows[1..] == [rows[1]] && products[1..] == [Diesel];
    assert rows[1..][1..] == [] && products[1..][1..] == [];
    assert TotalVolume(rows[1..]) == 2000.0;
    assert ExposedShift(rows[1..], products[1..], Diesel, 0.1 * 80.0) == 16000.0;
  }
}

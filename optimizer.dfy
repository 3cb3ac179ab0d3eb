/** The allocation and profit model: every assay cut is classified as a refined
    product, priced from the chosen region's column of the price table (an empty
    or missing price counts as 0), netted of the processing and freight cost per
    barrel, and the slate's profit is divided by the assay's total volume. */
module Optimizer {
  import opened Frames

  const Gasoline: string := "Gasoline"
  const JetKero: string := "Jet/Kero"
  const Diesel: string := "Diesel"
  const FuelOil: string := "Fuel Oil"

  /** The base processing cost per barrel when the caller gives none. */
  const DefaultBaseCost: real := 50.0

  /** The fixed cut-to-product table; its keys are lower case. */
  const CutToProduct: map<string, string> :=
    map["naphtha" := Gasoline, "kero" := JetKero, "kerosene" := JetKero,
        "diesel" := Diesel, "resid" := FuelOil]

  /** U+212A KELVIN SIGN, the one non-ASCII character that Python lower-cases to
      an ASCII letter. */
  const Kelvin: char := '\U{212A}'

  // ---------------------------------------------------------------------------
  // Classifying cuts
  // ---------------------------------------------------------------------------

  /** Lower-casing of one character as far as a lookup among ASCII keys can tell:
      capitals become small letters and the Kelvin sign becomes 'k'; any other
      character is kept (Python may change it, but never into ASCII letters only). */
  function LowerChar(c: char): char
  {
    if 'A' <= c <= 'Z' then (c as int + 32) as char
    else if c == Kelvin then 'k'
    else c
  }

  /** str.lower() character by character, through LowerChar: no capital ASCII
      letter and no Kelvin sign is left, and a word already in lower case is
      unchanged. */
  function Lower(s: string): (t: string)
    ensures |t| == |s|
    ensures forall i :: 0 <= i < |t| ==> !('A' <= t[i] <= 'Z') && t[i] != Kelvin
    ensures IsLowerWord(s) ==> t == s
  {
    seq(|s|, i requires 0 <= i < |s| => LowerChar(s[i]))
  }

  /** The refined product a cut is allocated to: the table's product when the cut
      is a string whose lower-case form is a key, and "Fuel Oil" for every other
      string and for a cell that does not hold a string. */
  function MapCutToProduct(cut: Cut): (p: string)
    ensures p in {Gasoline, JetKero, Diesel, FuelOil}
    ensures cut.NonText? ==> p == FuelOil
  {
    match cut
    case NonText => FuelOil
    case Text(s) => if Lower(s) in CutToProduct then CutToProduct[Lower(s)] else FuelOil
  }

  function UpperAscii(c: char): char
  {
    if 'a' <= c <= 'z' then (c as int - 32) as char else c
  }

  predicate IsLowerWord(key: string)
  {
    forall i :: 0 <= i < |key| ==> 'a' <= key[i] <= 'z'
  }

  /** `s` spells the lower-case word `key` in any mixture of cases, letter by
      letter (a 'k' may also be written as the Kelvin sign). */
  predicate SpellsIgnoringCase(s: string, key: string)
  {
    |s| == |key| &&
    forall i :: 0 <= i < |s| ==>
      s[i] == key[i] || s[i] == UpperAscii(key[i]) || (key[i] == 'k' && s[i] == Kelvin)
  }

  lemma {:induction false} LowerIsKeyIffSpells(s: string, key: string)
    requires IsLowerWord(key)
    ensures Lower(s) == key <==> SpellsIgnoringCase(s, key)
  {
    if Lower(s) == key {
      forall i | 0 <= i < |s|
        ensures s[i] == key[i] || s[i] == UpperAscii(key[i]) || (key[i] == 'k' && s[i] == Kelvin)
      {
        assert LowerChar(s[i]) == Lower(s)[i];
      }
    }
    if SpellsIgnoringCase(s, key) {
      forall i | 0 <= i < |s| ensures Lower(s)[i] == key[i] {
      }
    }
  }

  /** The lookup ignores case: a string cut goes to Gasoline exactly when it spells
      naphtha, to Jet/Kero exactly when it spells kero or kerosene, to Diesel
      exactly when it spells diesel; everything else, resid and every cell that
      is not a string included, falls to Fuel Oil. */
  lemma CutClassification(cut: Cut)
    ensures MapCutToProduct(cut) == Gasoline <==>
      cut.Text? && SpellsIgnoringCase(cut.name, "naphtha")
    ensures MapCutToProduct(cut) == JetKero <==>
      cut.Text? && (SpellsIgnoringCase(cut.name, "kero") || SpellsIgnoringCase(cut.name, "kerosene"))
    ensures MapCutToProduct(cut) == Diesel <==>
      cut.Text? && SpellsIgnoringCase(cut.name, "diesel")
    ensures MapCutToProduct(cut) == FuelOil <==>
      cut.NonText? ||
      !(SpellsIgnoringCase(cut.name, "naphtha") || SpellsIgnoringCase(cut.name, "kero") ||
        SpellsIgnoringCase(cut.name, "kerosene") || SpellsIgnoringCase(cut.name, "diesel"))
  {
    if cut.Text? {
      LowerIsKeyIffSpells(cut.name, "naphtha");
      LowerIsKeyIffSpells(cut.name, "kero");
      LowerIsKeyIffSpells(cut.name, "kerosene");
      LowerIsKeyIffSpells(cut.name, "diesel");
      LowerIsKeyIffSpells(cut.name, "resid");
    }
  }

  lemma GasolineExamples()
    ensures MapCutToProduct(Text("Naphtha")) == Gasoline
    ensures MapCutToProduct(Text("NAPHTHA")) == Gasoline
    ensures MapCutToProduct(Text("naphtha")) == Gasoline
  {
    assert Lower("Naphtha") == "naphtha";
    assert Lower("NAPHTHA") == "naphtha";
    assert Lower("naphtha") == "naphtha";
  }

  lemma JetKeroExamples()
    ensures MapCutToProduct(Text("Kero")) == JetKero
    ensures MapCutToProduct(Text("KEROSENE")) == JetKero
  {
    assert Lower("Kero") == "kero";
    assert Lower("KEROSENE") == "kerosene";
  }

  lemma DieselAndFuelOilExamples()
    ensures MapCutToProduct(Text("diesel")) == Diesel
    ensures MapCutToProduct(Text("Resid")) == FuelOil
    ensures MapCutToProduct(Text("Bitumen")) == FuelOil
    ensures MapCutToProduct(NonText) == FuelOil
  {
    assert Lower("diesel") == "diesel";
    assert Lower("Resid") == "resid";
    assert Lower("Bitumen")[0] == 'b';
  }

  // ---------------------------------------------------------------------------
  // Validation and errors
  // ---------------------------------------------------------------------------

  /** The error raised after validation, which the optimizer re-raises wrapped. */
  datatype FailureCause = ZeroTotalVolume

  datatype OptError =
    | MissingAssayColumns   // the assay lacks Cut or Volume
    | MissingPriceColumns   // the price table lacks Product or the region's column
    | NonNumericVolume
    | EmptyFrame            // the assay or the price table has no rows
    | OptimizationFailed(cause: FailureCause)
    | MissingProductColumn  // KeyError: the sensitivity analysis reads Product before any run

  /** The first structural check that fails, in the optimizer's order. */
  function Validate(assay: Assay, prices: PriceTable, region: string): (e: Option<OptError>)
    ensures e == None <==>
      "Cut" in assay.columns && "Volume" in assay.columns &&
      "Product" in prices.columns && region in prices.columns &&
      assay.volumeNumeric && |assay.rows| > 0 && |prices.rows| > 0
    ensures e.Some? ==> !e.value.OptimizationFailed?
  {
    if !("Cut" in assay.columns && "Volume" in assay.columns) then Some(MissingAssayColumns)
    else if !("Product" in prices.columns && region in prices.columns) then Some(MissingPriceColumns)
    else if !assay.volumeNumeric then Some(NonNumericVolume)
    else if |assay.rows| == 0 || |prices.rows| == 0 then Some(EmptyFrame)
    else None
  }

  // ---------------------------------------------------------------------------
  // The slate
  // ---------------------------------------------------------------------------

  datatype SlateRow = SlateRow(cut: Cut, product: string, volume: real, price: real, profit: real)

  datatype OptimizationResult =
    OptimizationResult(slate: seq<SlateRow>, profitPerBbl: real, unmatched: seq<string>)

  function TotalVolume(rows: seq<AssayRow>): real
  {
    if rows == [] then 0.0 else rows[0].volume + TotalVolume(rows[1..])
  }

  function TotalProfit(slate: seq<SlateRow>): real
  {
    if slate == [] then 0.0 else slate[0].profit + TotalProfit(slate[1..])
  }

  /** The "Allocated Product" column of an assay: one of the four products per row,
      Fuel Oil for every row whose Cut is not a string. */
  function Allocations(rows: seq<AssayRow>): (a: seq<string>)
    ensures |a| == |rows|
    ensures forall i :: 0 <= i < |a| ==> a[i] in {Gasoline, JetKero, Diesel, FuelOil}
    ensures forall i :: 0 <= i < |a| && rows[i].cut.NonText? ==> a[i] == FuelOil
  {
    seq(|rows|, i requires 0 <= i < |rows| => MapCutToProduct(rows[i].cut))
  }

  /** pandas' fillna(0): a filled price is 0 exactly when the cell is empty or
      holds 0, so the two cannot be told apart afterwards. */
  function Fill(v: Option<real>): (r: real)
    ensures r == 0.0 <==> v == None || v == Some(0.0)
    ensures v.Some? ==> r == v.value
  {
    if v.Some? then v.value else 0.0
  }

  /** The slate row of an assay row allocated to `product` and priced at `price`,
      net of `cost` per barrel. */
  function PricedRow(row: AssayRow, product: string, price: real, cost: real): SlateRow
  {
    SlateRow(row.cut, product, row.volume, price, (price - cost) * row.volume)
  }

  /** The region cells of the price rows whose Product is `product`, in table order. */
  function Matches(rows: seq<PriceRow>, product: string, region: string): seq<Option<real>>
  {
    if rows == [] then []
    else (if rows[0].product == product then [CellAt(rows[0], region)] else [])
         + Matches(rows[1..], product, region)
  }

  /** The rows a left join makes of one assay row allocated to `product`: one per
      matching price row, or one with an empty price when nothing matches; empty
      prices are filled with 0. */
  function JoinRow(row: AssayRow, product: string, prices: seq<PriceRow>, region: string, cost: real): seq<SlateRow>
  {
    var found := Matches(prices, product, region);
    var cells := if found == [] then [None] else found;
    seq(|cells|, k requires 0 <= k < |cells| => PricedRow(row, product, Fill(cells[k]), cost))
  }

  /** The left join of the assay, by its allocated products, with the price table,
      in assay order. */
  function Join(rows: seq<AssayRow>, products: seq<string>, prices: seq<PriceRow>, region: string, cost: real): seq<SlateRow>
    requires |products| == |rows|
  {
    if rows == [] then []
    else JoinRow(rows[0], products[0], prices, region, cost) + Join(rows[1..], products[1..], prices, region, cost)
  }

  /** The products of the slate rows whose filled price is 0, each once, in the
      order in which they first appear. */
  function Unmatched(slate: seq<SlateRow>): (u: seq<string>)
    ensures forall p :: p in u <==> exists k :: 0 <= k < |slate| && slate[k].price == 0.0 && slate[k].product == p
    ensures forall i, j :: 0 <= i < j < |u| ==> u[i] != u[j]
    decreases |slate|
  {
    if slate == [] then []
    else
      var u := Unmatched(slate[..|slate| - 1]);
      var last := slate[|slate| - 1];
      assert forall k :: 0 <= k < |slate| - 1 ==> slate[..|slate| - 1][k] == slate[k];
      if last.price == 0.0 && last.product !in u then u + [last.product] else u
  }

  /** The computation that follows validation, for an assay with non-zero total volume. */
  function Evaluate(assay: Assay, prices: PriceTable, region: string, freightCost: real, baseCost: real): OptimizationResult
    requires TotalVolume(assay.rows) != 0.0
  {
    var slate := Join(assay.rows, Allocations(assay.rows), prices.rows, region, baseCost + freightCost);
    OptimizationResult(slate, TotalProfit(slate) / TotalVolume(assay.rows), Unmatched(slate))
  }

  /** What run_optimization returns or raises. */
  function Optimize(assay: Assay, prices: PriceTable, region: string, freightCost: real, baseCost: real): (r: Result<OptimizationResult, OptError>)
    ensures r.Success? <==> Validate(assay, prices, region) == None && TotalVolume(assay.rows) != 0.0
    ensures Validate(assay, prices, region).Some? ==> r == Failure(Validate(assay, prices, region).value)
    ensures Validate(assay, prices, region) == None && TotalVolume(assay.rows) == 0.0 ==>
      r == Failure(OptimizationFailed(ZeroTotalVolume))
    ensures r.Success? ==> r.value.profitPerBbl * TotalVolume(assay.rows) == TotalProfit(r.value.slate)
  {
    var invalid := Validate(assay, prices, region);
    if invalid.Some? then Failure(invalid.value)
    else if TotalVolume(assay.rows) == 0.0 then Failure(OptimizationFailed(ZeroTotalVolume))
    else Success(Evaluate(assay, prices, region, freightCost, baseCost))
  }

  /** run_optimization on the caller's frames. After validation and the zero-volume
      check it assigns the "Allocated Product" column of the caller's assay in
      place; the Cut and Volume data and the price frame are left as they were. */
  method RunOptimization(assay: AssayFrame, prices: PriceFrame, region: string, freightCost: real, baseCost: real)
    returns (r: Result<OptimizationResult, OptError>)
    modifies assay
    ensures r == Optimize(old(assay.Table()), prices.Table(), region, freightCost, baseCost)
    ensures assay.Table() == old(assay.Table())
    ensures assay.allocation ==
      if r.Success? then Some(Allocations(assay.rows)) else old(assay.allocation)
  {
    var invalid := Validate(assay.Table(), prices.Table(), region);
    if invalid.Some? {
      return Failure(invalid.value);
    }
    var totalBbl := TotalVolume(assay.rows);
    if totalBbl == 0.0 {
      return Failure(OptimizationFailed(ZeroTotalVolume));
    }
    assay.AssignAllocated(Allocations(assay.rows));
    var slate := Join(assay.rows, assay.allocation.value, prices.rows, region, baseCost + freightCost);
    var totalProfit := TotalProfit(slate);
    r := Success(OptimizationResult(slate, totalProfit / totalBbl, Unmatched(slate)));
  }

  // ---------------------------------------------------------------------------
  // Properties of the slate
  // ---------------------------------------------------------------------------

  /** The region cell a lookup of the product finds, not yet filled: that of the
      first price row with that Product, which is None when the cell is empty;
      None too when no row has that Product. */
  function FirstCell(rows: seq<PriceRow>, product: string, region: string): Option<real>
  {
    if rows == [] then None
    else if rows[0].product == product then CellAt(rows[0], region)
    else FirstCell(rows[1..], product, region)
  }

  /** The region price of a product as a lookup would give it: the first price
      row with that Product, its cell filled with 0; 0 when no row has it. */
  function RegionPrice(rows: seq<PriceRow>, product: string, region: string): real
  {
    Fill(FirstCell(rows, product, region))
  }

  predicate HasProduct(rows: seq<PriceRow>, product: string)
  {
    exists i :: 0 <= i < |rows| && rows[i].product == product
  }

  /** No two price rows share a Product. */
  predicate UniqueProducts(rows: seq<PriceRow>)
  {
    forall i, j :: 0 <= i < j < |rows| ==> rows[i].product != rows[j].product
  }

  /** With no negative volume the total is never negative, and it is 0 (the case
      the optimizer reports as a failure) exactly when every cut's volume is 0. */
  lemma {:induction false} TotalVolumeZero(rows: seq<AssayRow>)
    requires forall i :: 0 <= i < |rows| ==> rows[i].volume >= 0.0
    ensures TotalVolume(rows) >= 0.0
    ensures TotalVolume(rows) == 0.0 <==> forall i :: 0 <= i < |rows| ==> rows[i].volume == 0.0
    decreases |rows|
  {
    if rows != [] {
      assert forall i :: 0 <= i < |rows| - 1 ==> rows[1..][i] == rows[i + 1];
      TotalVolumeZero(rows[1..]);
    }
  }

  /** The merge finds no price row exactly when no row has the product, never more
      rows than the table has, and its first match is the cell that a lookup of
      the product finds. */
  lemma {:induction false} MatchesMeaning(rows: seq<PriceRow>, product: string, region: string)
    ensures |Matches(rows, product, region)| <= |rows|
    ensures Matches(rows, product, region) == [] <==> !HasProduct(rows, product)
    ensures Matches(rows, product, region) != [] ==>
      Matches(rows, product, region)[0] == FirstCell(rows, product, region)
    decreases |rows|
  {
    if rows != [] {
      assert forall i :: 0 <= i < |rows| - 1 ==> rows[1..][i] == rows[i + 1];
      MatchesMeaning(rows[1..], product, region);
      if HasProduct(rows, product) && rows[0].product != product {
        var i :| 0 <= i < |rows| && rows[i].product == product;
        assert rows[1..][i - 1].product == product;
      }
      if HasProduct(rows[1..], product) {
        var i :| 0 <= i < |rows| - 1 && rows[1..][i].product == product;
        assert rows[i + 1].product == product;
      }
    }
  }

  lemma {:induction false} NoMatches(rows: seq<PriceRow>, product: string, region: string)
    requires !HasProduct(rows, product)
    ensures Matches(rows, product, region) == []
    ensures FirstCell(rows, product, region) == None
    decreases |rows|
  {
    if rows != [] {
      assert forall i :: 0 <= i < |rows| - 1 ==> rows[1..][i] == rows[i + 1];
      NoMatches(rows[1..], product, region);
    }
  }

  lemma {:induction false} UniqueMatch(rows: seq<PriceRow>, product: string, region: string)
    requires UniqueProducts(rows)
    ensures Matches(rows, product, region) ==
      if HasProduct(rows, product) then [FirstCell(rows, product, region)] else []
    decreases |rows|
  {
    if rows == [] {
    } else {
      assert forall i :: 0 <= i < |rows| - 1 ==> rows[1..][i] == rows[i + 1];
      MatchesMeaning(rows, product, region);
      if rows[0].product == product {
        NoMatches(rows[1..], product, region);
      } else {
        UniqueMatch(rows[1..], product, region);
        MatchesMeaning(rows[1..], product, region);
      }
    }
  }

  /** A product without any price row is priced at 0: its one slate row carries the
      whole cost burden as a loss. */
  lemma UnpricedRow(row: AssayRow, product: string, prices: seq<PriceRow>, region: string, cost: real)
    requires !HasProduct(prices, product)
    ensures JoinRow(row, product, prices, region, cost) ==
      [SlateRow(row.cut, product, row.volume, 0.0, -cost * row.volume)]
  {
    NoMatches(prices, product, region);
    var r := JoinRow(row, product, prices, region, cost);
    var cells: seq<Option<real>> := [None];
    assert r == seq(|cells|, k requires 0 <= k < |cells| => PricedRow(row, product, Fill(cells[k]), cost));
    assert |r| == 1 && r[0] == PricedRow(row, product, 0.0, cost);
    assert (0.0 - cost) * row.volume == -cost * row.volume;
    assert PricedRow(row, product, 0.0, cost) == SlateRow(row.cut, product, row.volume, 0.0, -cost * row.volume);
    assert r == [r[0]];
  }

  lemma UniqueJoinRow(row: AssayRow, product: string, prices: seq<PriceRow>, region: string, cost: real)
    requires UniqueProducts(prices)
    ensures JoinRow(row, product, prices, region, cost) ==
      [PricedRow(row, product, RegionPrice(prices, product, region), cost)]
  {
    UniqueMatch(prices, product, region);
    if !HasProduct(prices, product) {
      NoMatches(prices, product, region);
    }
  }

  lemma {:induction false} UniqueJoin(rows: seq<AssayRow>, products: seq<string>, prices: seq<PriceRow>, region: string, cost: real)
    requires |products| == |rows|
    requires UniqueProducts(prices)
    ensures |Join(rows, products, prices, region, cost)| == |rows|
    ensures forall i :: 0 <= i < |rows| ==>
      Join(rows, products, prices, region, cost)[i] ==
      PricedRow(rows[i], products[i], RegionPrice(prices, products[i], region), cost)
    decreases |rows|
  {
    if rows != [] {
      UniqueJoinRow(rows[0], products[0], prices, region, cost);
      UniqueJoin(rows[1..], products[1..], prices, region, cost);
    }
  }

  /** Every row's profit is its price net of `cost`, times its volume. */
  predicate ProfitsNetOf(slate: seq<SlateRow>, cost: real)
  {
    forall k :: 0 <= k < |slate| ==> slate[k].profit == (slate[k].price - cost) * slate[k].volume
  }

  lemma JoinRowProfits(row: AssayRow, product: string, prices: seq<PriceRow>, region: string, cost: real)
    ensures ProfitsNetOf(JoinRow(row, product, prices, region, cost), cost)
  {
    var found := Matches(prices, product, region);
    var cells := if found == [] then [None] else found;
    assert JoinRow(row, product, prices, region, cost) ==
      seq(|cells|, k requires 0 <= k < |cells| => PricedRow(row, product, Fill(cells[k]), cost));
  }

  /** A left join keeps every assay row: it makes one slate row per matching price
      row, at that row's filled price, or a single row priced at 0 when the product
      has none; every one keeps the cut, the product and the volume. */
  lemma JoinRowShape(row: AssayRow, product: string, prices: seq<PriceRow>, region: string, cost: real)
    ensures var r := JoinRow(row, product, prices, region, cost);
      |r| >= 1 &&
      |r| == (if HasProduct(prices, product) then |Matches(prices, product, region)| else 1) &&
      (forall k :: 0 <= k < |r| ==>
         r[k].cut == row.cut && r[k].product == product && r[k].volume == row.volume) &&
      (HasProduct(prices, product) ==>
         forall k :: 0 <= k < |r| ==> r[k].price == Fill(Matches(prices, product, region)[k])) &&
      (!HasProduct(prices, product) ==> r[0].price == 0.0)
  {
    MatchesMeaning(prices, product, region);
    var found := Matches(prices, product, region);
    var cells := if found == [] then [None] else found;
    assert JoinRow(row, product, prices, region, cost) ==
      seq(|cells|, k requires 0 <= k < |cells| => PricedRow(row, product, Fill(cells[k]), cost));
  }

  /** No cut is lost by the join: there is at least one slate row per assay row,
      and every slate row is for one of the allocated products. */
  lemma {:induction false} JoinShape(rows: seq<AssayRow>, products: seq<string>, prices: seq<PriceRow>, region: string, cost: real)
    requires |products| == |rows|
    ensures |Join(rows, products, prices, region, cost)| >= |rows|
    ensures forall k :: 0 <= k < |Join(rows, products, prices, region, cost)| ==>
      Join(rows, products, prices, region, cost)[k].product in products
    decreases |rows|
  {
    if rows != [] {
      JoinRowShape(rows[0], products[0], prices, region, cost);
      JoinShape(rows[1..], products[1..], prices, region, cost);
      var head := JoinRow(rows[0], products[0], prices, region, cost);
      var tail := Join(rows[1..], products[1..], prices, region, cost);
      var all: seq<SlateRow> := head + tail;
      assert products == [products[0]] + products[1..];
      forall k | 0 <= k < |all| ensures all[k].product in products {
        if k < |head| {
          assert all[k] == head[k];
        } else {
          assert all[k] == tail[k - |head|];
        }
      }
    }
  }

  /** Every slate row's profit is its price net of cost times its volume, however
      many price rows it was joined with. */
  lemma {:induction false} JoinProfits(rows: seq<AssayRow>, products: seq<string>, prices: seq<PriceRow>, region: string, cost: real)
    requires |products| == |rows|
    ensures ProfitsNetOf(Join(rows, products, prices, region, cost), cost)
    decreases |rows|
  {
    if rows != [] {
      JoinProfits(rows[1..], products[1..], prices, region, cost);
      JoinRowProfits(rows[0], products[0], prices, region, cost);
      var head := JoinRow(rows[0], products[0], prices, region, cost);
      var tail := Join(rows[1..], products[1..], prices, region, cost);
      var all: seq<SlateRow> := head + tail;
      forall k | 0 <= k < |all|
        ensures all[k].profit == (all[k].price - cost) * all[k].volume
      {
        if k < |head| {
          assert all[k] == head[k];
        } else {
          assert all[k] == tail[k - |head|];
        }
      }
    }
  }

  lemma EvaluatedSlate(assay: Assay, prices: PriceTable, region: string, freightCost: real, baseCost: real)
    requires TotalVolume(assay.rows) != 0.0
    ensures Evaluate(assay, prices, region, freightCost, baseCost).slate ==
      Join(assay.rows, Allocations(assay.rows), prices.rows, region, baseCost + freightCost)
  {
  }

  /** What the optimizer returns after validation is read off its slate: profit per
      barrel times total volume is the slate's total profit, the slate has a row for
      every cut, and every product reported unmatched is an allocated product. */
  lemma EvaluatedResult(assay: Assay, prices: PriceTable, region: string, freightCost: real, baseCost: real)
    requires TotalVolume(assay.rows) != 0.0
    ensures var r := Evaluate(assay, prices, region, freightCost, baseCost);
      r.profitPerBbl * TotalVolume(assay.rows) == TotalProfit(r.slate) &&
      |r.slate| >= |assay.rows| &&
      forall p :: p in r.unmatched ==> p in Allocations(assay.rows)
  {
    JoinShape(assay.rows, Allocations(assay.rows), prices.rows, region, baseCost + freightCost);
  }

  /** With unique Product keys the slate has exactly one row per assay row, in
      assay order: the row's Cut and Volume, its allocated product, that product's
      region price (0 when it has none) and the profit at that price net of the
      base and freight cost. */
  lemma {:induction false} SlateFollowsAssay(assay: Assay, prices: PriceTable, region: string, freightCost: real, baseCost: real)
    requires TotalVolume(assay.rows) != 0.0
    requires UniqueProducts(prices.rows)
    ensures var slate := Evaluate(assay, prices, region, freightCost, baseCost).slate;
      |slate| == |assay.rows| &&
      forall i :: 0 <= i < |assay.rows| ==>
        var product := MapCutToProduct(assay.rows[i].cut);
        slate[i] == PricedRow(assay.rows[i], product, RegionPrice(prices.rows, product, region), baseCost + freightCost)
  {
    var cost := baseCost + freightCost;
    var products := Allocations(assay.rows);
    UniqueJoin(assay.rows, products, prices.rows, region, cost);
    EvaluatedSlate(assay, prices, region, freightCost, baseCost);
    var slate := Join(assay.rows, products, prices.rows, region, cost);
    forall i | 0 <= i < |assay.rows|
      ensures slate[i] == PricedRow(assay.rows[i], MapCutToProduct(assay.rows[i].cut),
                                    RegionPrice(prices.rows, MapCutToProduct(assay.rows[i].cut), region), cost)
    {
      assert products[i] == MapCutToProduct(assay.rows[i].cut);
    }
  }

  /** Price times volume, summed over the rows, each row at the region price of
      its product in `products`. */
  function SalesValue(rows: seq<AssayRow>, products: seq<string>, prices: seq<PriceRow>, region: string): real
    requires |products| == |rows|
  {
    if rows == [] then 0.0
    else RegionPrice(prices, products[0], region) * rows[0].volume + SalesValue(rows[1..], products[1..], prices, region)
  }

  /** The assay's revenue: each cut sold at its allocated product's region price. */
  function Revenue(rows: seq<AssayRow>, prices: seq<PriceRow>, region: string): real
  {
    SalesValue(rows, Allocations(rows), prices, region)
  }

  /** Each row's margin over `cost` at its product's region price, times its
      volume, summed over the rows. */
  function NetValue(rows: seq<AssayRow>, products: seq<string>, prices: seq<PriceRow>, region: string, cost: real): real
    requires |products| == |rows|
  {
    if rows == [] then 0.0
    else
      var margin := RegionPrice(prices, products[0], region) - cost;
      margin * rows[0].volume + NetValue(rows[1..], products[1..], prices, region, cost)
  }

  lemma {:induction false} JoinProfitIsNetValue(rows: seq<AssayRow>, products: seq<string>, prices: seq<PriceRow>, region: string, cost: real)
    requires |products| == |rows|
    requires UniqueProducts(prices)
    ensures TotalProfit(Join(rows, products, prices, region, cost)) == NetValue(rows, products, prices, region, cost)
    decreases |rows|
  {
    if rows != [] {
      JoinProfitIsNetValue(rows[1..], products[1..], prices, region, cost);
      var head := JoinRow(rows[0], products[0], prices, region, cost);
      var tail := Join(rows[1..], products[1..], prices, region, cost);
      TotalProfitAppend(head, tail);
      UniqueJoinRowProfit(rows[0], products[0], prices, region, cost);
    }
  }

  lemma {:induction false} NetValueIsSalesLessCost(rows: seq<AssayRow>, products: seq<string>, prices: seq<PriceRow>, region: string, cost: real)
    requires |products| == |rows|
    ensures NetValue(rows, products, prices, region, cost) ==
      SalesValue(rows, products, prices, region) - cost * TotalVolume(rows)
    decreases |rows|
  {
    if rows != [] {
      NetValueIsSalesLessCost(rows[1..], products[1..], prices, region, cost);
      NetOfCost(RegionPrice(prices, products[0], region), rows[0].volume,
                SalesValue(rows[1..], products[1..], prices, region), TotalVolume(rows[1..]), TotalVolume(rows), cost);
    }
  }

  /** With unique Product keys, the slate's total profit is the revenue less the
      cost of every barrel. */
  lemma ProfitIsRevenueLessCost(rows: seq<AssayRow>, prices: seq<PriceRow>, region: string, cost: real)
    requires UniqueProducts(prices)
    ensures TotalProfit(Join(rows, Allocations(rows), prices, region, cost)) ==
      Revenue(rows, prices, region) - cost * TotalVolume(rows)
  {
    JoinProfitIsNetValue(rows, Allocations(rows), prices, region, cost);
    NetValueIsSalesLessCost(rows, Allocations(rows), prices, region, cost);
  }

  lemma UniqueJoinRowProfit(row: AssayRow, product: string, prices: seq<PriceRow>, region: string, cost: real)
    requires UniqueProducts(prices)
    ensures TotalProfit(JoinRow(row, product, prices, region, cost)) ==
      (RegionPrice(prices, product, region) - cost) * row.volume
  {
    UniqueJoinRow(row, product, prices, region, cost);
    var head := JoinRow(row, product, prices, region, cost);
    assert head[1..] == [];
  }

  lemma {:induction false} TotalProfitAppend(a: seq<SlateRow>, b: seq<SlateRow>)
    ensures TotalProfit(a + b) == TotalProfit(a) + TotalProfit(b)
    decreases |a|
  {
    if a == [] {
      assert a + b == b;
    } else {
      assert (a + b)[0] == a[0];
      assert (a + b)[1..] == a[1..] + b;
      TotalProfitAppend(a[1..], b);
    }
  }

  /** One more barrel lot: revenue and cost add up separately. */
  lemma NetOfCost(p: real, v: real, rev: real, vol: real, total: real, cost: real)
    requires total == v + vol
    ensures (p - cost) * v + (rev - cost * vol) == (p * v + rev) - cost * total
  {
  }

  /** With unique Product keys, profit per barrel is the volume-weighted average
      region price less the base and freight cost. */
  lemma ProfitPerBarrelIsMargin(assay: Assay, prices: PriceTable, region: string, freightCost: real, baseCost: real)
    requires TotalVolume(assay.rows) != 0.0
    requires UniqueProducts(prices.rows)
    ensures Evaluate(assay, prices, region, freightCost, baseCost).profitPerBbl ==
      Revenue(assay.rows, prices.rows, region) / TotalVolume(assay.rows) - (baseCost + freightCost)
  {
    var cost := baseCost + freightCost;
    var v := TotalVolume(assay.rows);
    var rev := Revenue(assay.rows, prices.rows, region);
    var slate := Join(assay.rows, Allocations(assay.rows), prices.rows, region, cost);
    ProfitIsRevenueLessCost(assay.rows, prices.rows, region, cost);
    assert TotalProfit(slate) == rev - cost * v;
    AverageLessCost(rev, cost, v);
  }

  /** Dividing revenue less a per-barrel cost by the volume. */
  lemma AverageLessCost(rev: real, cost: real, v: real)
    requires v != 0.0
    ensures (rev - cost * v) / v == rev / v - cost
  {
    assert (rev - cost * v) / v == rev / v - (cost * v) / v;
  }

  /** With unique Product keys, the unmatched products are exactly the allocated
      products whose region price is 0, whether missing, empty or explicitly 0. */
  lemma UnmatchedAreZeroPriced(assay: Assay, prices: PriceTable, region: string, freightCost: real, baseCost: real)
    requires TotalVolume(assay.rows) != 0.0
    requires UniqueProducts(prices.rows)
    ensures forall p :: p in Evaluate(assay, prices, region, freightCost, baseCost).unmatched <==>
      exists i :: 0 <= i < |assay.rows| && MapCutToProduct(assay.rows[i].cut) == p &&
                  RegionPrice(prices.rows, p, region) == 0.0
  {
    SlateFollowsAssay(assay, prices, region, freightCost, baseCost);
  }
}

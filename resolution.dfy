/**
 * Name and brand resolution and the two ratios (app.py lines 97-101), applied
 * to the merged master table.
 */
module Resolution {
  import opened Wrappers
  import opened Cells
  import opened Brands
  import opened Tables
  import opened Inventory
  import opened Ads
  import opened Master

  /**
   * The `Item Name` of a row: the curated name when `Final_ASIN` is a key of
   * `MAISON_REF`, else the title when it is neither NaN nor 0, else "N/A".
   */
  function ItemName(m: MasterRow): (r: Cell)
    ensures !r.Missing? && !IsZero(r)
  {
    if m.finalAsin.Str? && m.finalAsin.s in MaisonRef then Str(MaisonRef[m.finalAsin.s])
    else if !m.title.Missing? && !IsZero(m.title) then m.title
    else Str("N/A")
  }

  /** A curated name always wins over the report's title. */
  lemma CuratedNameWins(m: MasterRow)
    requires m.finalAsin.Str? && m.finalAsin.s in MaisonRef
    ensures ItemName(m) == Str(MaisonRef[m.finalAsin.s]) && ItemName(m) != Str("N/A")
  {
  }

  /** Without a curated name the title is shown, and "N/A" exactly when the title is NaN or 0. */
  lemma TitleOrNotAvailable(m: MasterRow)
    requires !(m.finalAsin.Str? && m.finalAsin.s in MaisonRef)
    ensures ItemName(m) == (if m.title.Missing? || IsZero(m.title) then Str("N/A") else m.title)
  {
  }

  /** The brand in the `Brand` column is kept unless it is 0 or "Unmapped". */
  predicate KeepsBrand(b: Cell) {
    !IsZero(b) && b != Str(Unmapped)
  }

  /**
   * The resolved `Brand` of a row: the merged brand when it is kept, else the
   * brand read from the title and the campaign (no SKU), which is a label or
   * "Unmapped"; either way the brand is never 0.
   */
  function ResolvedBrand(m: MasterRow): (r: Cell)
    ensures KeepsBrand(m.brand) ==> r == m.brand
    ensures !KeepsBrand(m.brand) ==> r.Str? && IsBrand(r.s)
    ensures !IsZero(r)
  {
    if KeepsBrand(m.brand) then m.brand
    else
      var text := ScanText(Some(m.title), None, Some(m.campaign));
      ClassifyIsLabel(text);
      Str(Classify(text))
  }

  /** Resolution turns every such brand into a label or "Unmapped" text. */
  lemma ResolvedBrandIsLabel(m: MasterRow)
    requires BrandCell(m.brand)
    ensures var b := ResolvedBrand(m); b.Str? && (b.s in Labels() || b.s == Unmapped)
  {
    if !KeepsBrand(m.brand) {
      ClassifyIsLabel(ScanText(Some(m.title), None, Some(m.campaign)));
    }
  }

  /** A known brand from the inventory is never replaced. */
  lemma InventoryBrandKept(m: MasterRow, i: nat)
    requires i < |Targets| && m.brand == Str(Targets[i].0)
    ensures ResolvedBrand(m) == m.brand
  {
    LabelsDistinct();
  }

  /** The table with its `Item Name` column set. */
  function NamesResolved(rows: seq<MasterRow>): (r: seq<MasterRow>)
    ensures |r| == |rows| && forall i | 0 <= i < |rows| :: r[i] == rows[i].(itemName := ItemName(rows[i]))
  {
    seq(|rows|, i requires 0 <= i < |rows| => rows[i].(itemName := ItemName(rows[i])))
  }

  /** The table with its `Brand` column resolved. */
  function BrandsResolved(rows: seq<MasterRow>): (r: seq<MasterRow>)
    ensures |r| == |rows| && forall i | 0 <= i < |rows| :: r[i] == rows[i].(brand := ResolvedBrand(rows[i]))
  {
    seq(|rows|, i requires 0 <= i < |rows| => rows[i].(brand := ResolvedBrand(rows[i])))
  }

  /**
   * The `Item Name` column, set row by row from each row's own ASIN and title;
   * nothing else changes.
   */
  method ResolveNames(rows: seq<MasterRow>) returns (out: seq<MasterRow>)
    ensures out == NamesResolved(rows)
  {
    out := rows;
    for i := 0 to |rows|
      invariant |out| == |rows|
      invariant forall j | 0 <= j < i :: out[j] == rows[j].(itemName := ItemName(rows[j]))
      invariant forall j | i <= j < |rows| :: out[j] == rows[j]
    {
      out := out[i := out[i].(itemName := ItemName(out[i]))];
    }
  }

  /**
   * The `Brand` column, row by row: a kept brand stays, any other is read by
   * `get_brand_robust` from the title and the campaign, without a SKU; nothing
   * else changes.
   */
  method ResolveBrands(rows: seq<MasterRow>) returns (out: seq<MasterRow>)
    ensures out == BrandsResolved(rows)
  {
    out := rows;
    for i := 0 to |rows|
      invariant |out| == |rows|
      invariant forall j | 0 <= j < i :: out[j] == rows[j].(brand := ResolvedBrand(rows[j]))
      invariant forall j | i <= j < |rows| :: out[j] == rows[j]
    {
      var m := out[i];
      if !KeepsBrand(m.brand) {
        var b := GetBrandRobust(Some(m.title), None, Some(m.campaign));
        out := out[i := m.(brand := Str(b))];
      }
    }
  }

  /**
   * A ratio column's value: the quotient, and 0 when the denominator is 0,
   * where the float division gives an infinity or NaN that is then replaced by 0.
   */
  function SafeRatio(n: real, d: real): (r: real)
    ensures d != 0.0 ==> r * d == n
    ensures d == 0.0 ==> r == 0.0
  {
    if d == 0.0 then 0.0 else n / d
  }

  /** `ACOS` is spend over ad sales; `TACOS` is spend over business sales. */
  function WithRatios(rows: seq<MasterRow>): (r: seq<MasterRow>)
    ensures |r| == |rows|
    ensures forall i | 0 <= i < |rows| :: r[i] == rows[i].(
      acos := Num(SafeRatio(Value(rows[i].adSpend), Value(rows[i].adSales))),
      tacos := Num(SafeRatio(Value(rows[i].adSpend), Value(rows[i].bizSales))))
  {
    seq(|rows|, i requires 0 <= i < |rows| => rows[i].(
      acos := Num(SafeRatio(Value(rows[i].adSpend), Value(rows[i].adSales))),
      tacos := Num(SafeRatio(Value(rows[i].adSpend), Value(rows[i].bizSales)))))
  }

  /** A ratio has the sign of its numerator over a positive denominator, and is 0 for no spend. */
  lemma SafeRatioSign(n: real, d: real)
    ensures n >= 0.0 && d > 0.0 ==> SafeRatio(n, d) >= 0.0
    ensures n == 0.0 ==> SafeRatio(n, d) == 0.0
  {
    if d != 0.0 && n >= 0.0 && d > 0.0 {
      assert SafeRatio(n, d) * d == n;
    }
  }

  /**
   * Lines 97-101 together: row for row, each merged row completed with its
   * name, its brand and its two ratios.
   */
  function Finished(rows: seq<MasterRow>): (r: seq<MasterRow>)
    ensures |r| == |rows|
    ensures forall i | 0 <= i < |rows| :: r[i] == Completed(rows[i])
  {
    var n := NamesResolved(rows);
    var r := WithRatios(BrandsResolved(n));
    assert forall i | 0 <= i < |rows| :: r[i] == Completed(rows[i]) by {
      forall i | 0 <= i < |rows| ensures r[i] == Completed(rows[i]) {
        assert ResolvedBrand(n[i]) == ResolvedBrand(rows[i]);
      }
    }
    r
  }

  /**
   * Each finished row is its merged row with `Item Name`, `Brand`, `ACOS` and
   * `TACOS` set; no other column changes, and the brand is resolved from the
   * merged row's own title and campaign.
   */
  lemma FinishedRow(rows: seq<MasterRow>, i: nat)
    requires i < |rows|
    ensures |Finished(rows)| == |rows|
    ensures Finished(rows)[i] == rows[i].(itemName := ItemName(rows[i]), brand := ResolvedBrand(rows[i]),
      acos := Num(SafeRatio(Value(rows[i].adSpend), Value(rows[i].adSales))),
      tacos := Num(SafeRatio(Value(rows[i].adSpend), Value(rows[i].bizSales))))
  {
    var n := NamesResolved(rows);
    assert ResolvedBrand(n[i]) == ResolvedBrand(rows[i]);
  }

  /** A finished row: its merged row with the item name, brand and ratios filled in. */
  function Completed(m: MasterRow): (r: MasterRow)
    ensures r.finalAsin == m.finalAsin && r.stock == m.stock && r.bizAsin == m.bizAsin && r.title == m.title
    ensures r.bizSales == m.bizSales && r.adAsin == m.adAsin && r.adSales == m.adSales && r.adSpend == m.adSpend
    ensures r.campaign == m.campaign
  {
    m.(itemName := ItemName(m), brand := ResolvedBrand(m),
       acos := Num(SafeRatio(Value(m.adSpend), Value(m.adSales))),
       tacos := Num(SafeRatio(Value(m.adSpend), Value(m.bizSales))))
  }

  /** Every finished row is the completion of a merged row. */
  lemma FinishedFrom(rows: seq<MasterRow>, m: MasterRow)
    requires m in Finished(rows)
    ensures exists k | 0 <= k < |rows| :: m == Completed(rows[k])
  {
    var k :| 0 <= k < |Finished(rows)| && Finished(rows)[k] == m;
    FinishedRow(rows, k);
  }

  /** Every merged row is completed into a finished row. */
  lemma FinishedHas(rows: seq<MasterRow>, m: MasterRow)
    requires m in rows
    ensures Completed(m) in Finished(rows)
  {
    var k :| 0 <= k < |rows| && rows[k] == m;
    FinishedRow(rows, k);
  }

  /** Every pivot row reaches the finished table with its stock, and its brand unless that is "Unmapped". */
  lemma FinishedKeepsPivot(pivot: seq<PivotRow>, biz: seq<BizRow>, ads: seq<AdRow>, p: PivotRow)
    requires forall q | q in pivot :: !q.asin.Missing?
    requires p in pivot && IsBrand(p.brand)
    ensures exists m | m in Finished(Merged(pivot, biz, ads)) ::
      && m.finalAsin == p.asin && m.stock == Num(p.stock)
      && (p.brand != Unmapped ==> m.brand == Str(p.brand))
  {
    MergedKeepsPivot(pivot, biz, ads, p);
    var rows := Merged(pivot, biz, ads);
    var m0 :| m0 in rows && m0.finalAsin == p.asin && m0.brand == Str(p.brand) && m0.stock == Num(p.stock);
    FinishedHas(rows, m0);
    if p.brand != Unmapped {
      var i :| 0 <= i < |Labels()| && Labels()[i] == p.brand;
      InventoryBrandKept(m0, i);
    }
  }

  /** Every business row reaches the finished table, NaN read as 0. */
  lemma FinishedKeepsBiz(pivot: seq<PivotRow>, biz: seq<BizRow>, ads: seq<AdRow>, b: BizRow)
    requires b in biz
    ensures exists m | m in Finished(Merged(pivot, biz, ads)) ::
      m.bizAsin == FillZero(b.asin) && m.title == FillZero(b.title) && m.bizSales == FillZero(b.sales)
  {
    MergedKeepsBiz(pivot, biz, ads, b);
    var rows := Merged(pivot, biz, ads);
    var m0 :| m0 in rows && m0.bizAsin == FillZero(b.asin) && m0.title == FillZero(b.title) && m0.bizSales == FillZero(b.sales);
    FinishedHas(rows, m0);
  }

  /** Every ad aggregate row reaches the finished table with its sums and the ACOS they give. */
  lemma FinishedKeepsAd(pivot: seq<PivotRow>, biz: seq<BizRow>, ads: seq<AdRow>, a: AdRow)
    requires a in ads
    ensures exists m | m in Finished(Merged(pivot, biz, ads)) ::
      && m.adAsin == FillZero(a.asin) && m.adSales == Num(a.sales) && m.adSpend == Num(a.spend)
      && m.acos == Num(SafeRatio(a.spend, a.sales))
  {
    MergedKeepsAd(pivot, biz, ads, a);
    var rows := Merged(pivot, biz, ads);
    var m0 :| m0 in rows && m0.adAsin == FillZero(a.asin) && m0.adSales == Num(a.sales) && m0.adSpend == Num(a.spend)
      && m0.campaign == FillZero(a.campaign);
    FinishedHas(rows, m0);
  }

  /** An ad row whose ASIN is in neither the pivot nor the business rows ends with `Final_ASIN` 0. */
  lemma FinishedAdOnly(pivot: seq<PivotRow>, biz: seq<BizRow>, ads: seq<AdRow>, a: AdRow)
    requires forall p | p in pivot :: !p.asin.Missing?
    requires a in ads
    requires forall p | p in pivot :: p.asin != a.asin
    requires forall b | b in biz :: b.asin != a.asin
    ensures exists m | m in Finished(Merged(pivot, biz, ads)) :: m.finalAsin == Num(0.0) && m.adAsin == FillZero(a.asin)
  {
    MergedAdOnly(pivot, biz, ads, a);
    var rows := Merged(pivot, biz, ads);
    var m0 :| m0 in rows && m0.finalAsin == Num(0.0) && m0.adAsin == FillZero(a.asin);
    FinishedHas(rows, m0);
  }

  /** When every pivot brand is a label or "Unmapped", so is every finished brand. */
  lemma FinishedBrands(pivot: seq<PivotRow>, biz: seq<BizRow>, ads: seq<AdRow>, m: MasterRow)
    requires forall p | p in pivot :: IsBrand(p.brand)
    requires m in Finished(Merged(pivot, biz, ads))
    ensures m.brand.Str? && IsBrand(m.brand.s)
  {
    var rows := Merged(pivot, biz, ads);
    FinishedFrom(rows, m);
    var k :| 0 <= k < |rows| && m == Completed(rows[k]);
    MergedBrands(pivot, biz, ads, rows[k]);
    ResolvedBrandIsLabel(rows[k]);
  }

  /** No finished cell is NaN, every item name is a name or "N/A", and both ratios are numbers. */
  lemma FinishedComplete(pivot: seq<PivotRow>, biz: seq<BizRow>, ads: seq<AdRow>, m: MasterRow)
    requires m in Finished(Merged(pivot, biz, ads))
    ensures NoGaps(m) && !m.itemName.Missing? && !IsZero(m.itemName) && m.acos.Num? && m.tacos.Num?
  {
    var rows := Merged(pivot, biz, ads);
    FinishedFrom(rows, m);
    var k :| 0 <= k < |rows| && m == Completed(rows[k]);
    MergedNoGaps(pivot, biz, ads, rows[k]);
  }

  /** `rows` hold a row for `asin` with that stock, and with `brand` unless it is "Unmapped". */
  predicate StockReported(rows: seq<MasterRow>, asin: Cell, stock: real, brand: string) {
    exists m | m in rows ::
      && m.finalAsin == asin && m.stock == Num(stock)
      && (brand != Unmapped ==> m.brand == Str(brand))
  }

  /**
   * Every sellable inventory row with an ASIN reaches the finished table: its
   * ASIN is a `Final_ASIN` holding the stock of its (ASIN, SKU brand) group,
   * and a brand its SKU names is kept.
   */
  lemma FinishedKeepsSellable(rows: seq<seq<Cell>>, cond: nat, asin: nat, qty: nat, sku: Option<nat>,
                              biz: seq<BizRow>, ads: seq<AdRow>, k: nat)
    requires HasColumn(rows, asin) && HasColumn(rows, qty)
    requires k < |rows| && SellableRow(rows[k], cond) && !rows[k][asin].Missing?
    ensures var brand := SkuBrand(rows[k], sku);
      StockReported(Finished(Merged(InventoryPivot(rows, cond, asin, qty, sku), biz, ads)), rows[k][asin],
                    GroupStock(rows, cond, asin, qty, sku, (rows[k][asin], brand)), brand)
  {
    var pivot := InventoryPivot(rows, cond, asin, qty, sku);
    SellableRowStock(rows, cond, asin, qty, sku, k);
    var i :| 0 <= i < |pivot| && pivot[i].asin == rows[k][asin] && pivot[i].brand == SkuBrand(rows[k], sku)
      && pivot[i].stock == GroupStock(rows, cond, asin, qty, sku, (rows[k][asin], SkuBrand(rows[k], sku)));
    PivotTagged(rows, cond, asin, qty, sku);
    assert pivot[i] in pivot;
    FinishedKeepsPivot(pivot, biz, ads, pivot[i]);
  }
}

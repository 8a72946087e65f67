/**
 * The reconciliation of app.py lines 72-101: from the three reports as read to
 * the finished master table, or to the exception the script stops with when a
 * column it indexes cannot be found.
 */
module Pipeline {
  import opened Wrappers
  import opened Cells
  import opened Numeric
  import opened Tables
  import opened Columns
  import opened Brands
  import opened Inventory
  import opened Ads
  import opened Master
  import opened Resolution

  /** The end of a run: the script raised (a column is missing), or the master table. */
  datatype Outcome = Raised | Done(master: seq<MasterRow>)

  /** The positions of the columns the reconciliation works with, after `find_col`. */
  datatype Roles = Roles(
    iAsin: nat, iQty: nat, iCond: nat, iSku: Option<nat>,
    bAsin: nat, bSales: nat, bTitle: nat,
    aAsin: nat, aSales: nat, aSpend: nat, aCamp: nat)

  /** The position of the column `find_col(df, keywords)` names, if it names one. */
  function Locate(headers: seq<string>, keywords: seq<string>): (r: Option<nat>)
    ensures r.Some? ==> r.value < |headers| && FirstMatch(headers, keywords, []) == Some(headers[r.value])
    ensures r.None? <==> FirstMatch(headers, keywords, []).None?
  {
    match FirstMatch(headers, keywords, [])
    case None => None
    case Some(c) => Some(IndexOf(headers, c))
  }

  /**
   * The columns of lines 75, 83 and 84, by their keywords. Every one except
   * the SKU column is indexed later, so a missing one ends the run.
   */
  function FindRolesSpec(ad: Table, biz: Table, inv: Table): (r: Option<Roles>)
    ensures r.Some? ==> Fits(r.value, ad, biz, inv)
  {
    var iAsin, iQty := Locate(inv.headers, ["asin"]), Locate(inv.headers, ["quantity available"]);
    var iCond, iSku := Locate(inv.headers, ["warehouse-condition-code"]), Locate(inv.headers, ["seller-sku"]);
    var bAsin, bSales := Locate(biz.headers, ["child asin", "asin"]), Locate(biz.headers, ["ordered product sales"]);
    var bTitle := Locate(biz.headers, ["title", "item name"]);
    var aAsin, aSales := Locate(ad.headers, ["advertised asin"]), Locate(ad.headers, ["7 day total sales"]);
    var aSpend, aCamp := Locate(ad.headers, ["spend"]), Locate(ad.headers, ["campaign name"]);
    if iAsin.None? || iQty.None? || iCond.None? || bAsin.None? || bSales.None? || bTitle.None?
       || aAsin.None? || aSales.None? || aSpend.None? || aCamp.None? then None
    else Some(Roles(iAsin.value, iQty.value, iCond.value, iSku, bAsin.value, bSales.value, bTitle.value,
                    aAsin.value, aSales.value, aSpend.value, aCamp.value))
  }

  /** Every role is a column of its report. */
  predicate Fits(r: Roles, ad: Table, biz: Table, inv: Table) {
    && r.iAsin < |inv.headers| && r.iQty < |inv.headers| && r.iCond < |inv.headers|
    && (r.iSku.Some? ==> r.iSku.value < |inv.headers|)
    && r.bAsin < |biz.headers| && r.bSales < |biz.headers| && r.bTitle < |biz.headers|
    && r.aAsin < |ad.headers| && r.aSales < |ad.headers| && r.aSpend < |ad.headers| && r.aCamp < |ad.headers|
  }

  /** Well-formed reports whose roles all fit. */
  predicate Ready(ad: Table, biz: Table, inv: Table, r: Roles) {
    WellFormed(ad) && WellFormed(biz) && WellFormed(inv) && Fits(r, ad, biz, inv)
  }

  /**
   * The inventory pivot built from the report's own columns: one row per
   * (ASIN, brand) group, holding that group's stock.
   */
  function PivotOf(inv: Table, r: Roles): (pv: seq<PivotRow>)
    requires WellFormed(inv) && r.iAsin < |inv.headers| && r.iQty < |inv.headers|
    ensures forall i, j | 0 <= i < j < |pv| :: (pv[i].asin, pv[i].brand) != (pv[j].asin, pv[j].brand)
    ensures forall i | 0 <= i < |pv| :: pv[i].stock == StockOfGroup(inv, r, (pv[i].asin, pv[i].brand))
  {
    HeaderIsColumn(inv, r.iAsin);
    HeaderIsColumn(inv, r.iQty);
    InventoryPivot(inv.rows, r.iCond, r.iAsin, r.iQty, r.iSku)
  }

  /**
   * The stock the inventory pivot sums for one (ASIN, brand) group, in the
   * pipeline's terms. It names `GroupStock` over the inventory report and its
   * roles, so that the ensures of `SellableRowReported` can mention it without
   * repeating the column preconditions.
   */
  function StockOfGroup(inv: Table, r: Roles, key: (Cell, string)): real
    requires WellFormed(inv) && r.iAsin < |inv.headers| && r.iQty < |inv.headers|
  {
    GroupStock(inv.rows, r.iCond, r.iAsin, r.iQty, r.iSku, key)
  }

  /**
   * The business rows as the first merge takes them: one per report row, with
   * its sales run through `clean_numeric` and its ASIN and title as read (a
   * role that names the sales column itself is cleaned with it).
   */
  function BizOf(biz: Table, r: Roles): (b: seq<BizRow>)
    requires WellFormed(biz) && r.bAsin < |biz.headers| && r.bSales < |biz.headers| && r.bTitle < |biz.headers|
    ensures |b| == |biz.rows|
    ensures forall i | 0 <= i < |b| && r.bAsin != r.bSales :: b[i].asin == biz.rows[i][r.bAsin]
    ensures forall i | 0 <= i < |b| && r.bTitle != r.bSales :: b[i].title == biz.rows[i][r.bTitle]
    ensures forall i | 0 <= i < |b| :: b[i].sales == CleanNumeric(biz.rows[i][r.bSales])
  {
    HeaderIsColumn(biz, r.bSales);
    var rows := Cleaned(biz.rows, r.bSales);
    BizRows(rows, r.bAsin, r.bTitle, r.bSales)
  }

  /** The ad report with its sales and spend cleaned, as on line 87. */
  function AdRowsOf(ad: Table, r: Roles): (rows: seq<seq<Cell>>)
    requires WellFormed(ad) && r.aSales < |ad.headers| && r.aSpend < |ad.headers|
    ensures |rows| == |ad.rows| && forall i | 0 <= i < |rows| :: |rows[i]| == |ad.headers|
  {
    HeaderIsColumn(ad, r.aSales);
    var once := Cleaned(ad.rows, r.aSales);
    Cleaned(once, r.aSpend)
  }

  /** The ad aggregate over the cleaned ad report: no two of its rows share an ASIN. */
  function AdsOf(ad: Table, r: Roles): (a: seq<AdRow>)
    requires WellFormed(ad) && r.aAsin < |ad.headers| && r.aSales < |ad.headers| && r.aSpend < |ad.headers|
    requires r.aCamp < |ad.headers|
    ensures forall i, j | 0 <= i < j < |a| :: a[i].asin != a[j].asin
  {
    var rows := AdRowsOf(ad, r);
    var a := AdAggregate(rows, r.aAsin, r.aSales, r.aSpend, r.aCamp);
    forall i: nat, j: nat | i < j < |a| ensures a[i].asin != a[j].asin {
      AdAsinsDistinct(rows, r.aAsin, r.aSales, r.aSpend, r.aCamp, i, j);
    }
    a
  }

  /**
   * The master table once every column is found: the merged table, completed
   * with item names, brands and both ratios. No cell of it is NaN and both
   * ratios are numbers.
   */
  function Reconciled(ad: Table, biz: Table, inv: Table, r: Roles): (out: seq<MasterRow>)
    requires Ready(ad, biz, inv, r)
    ensures forall m | m in out :: NoGaps(m) && m.acos.Num? && m.tacos.Num?
  {
    Finished(Merged(PivotOf(inv, r), BizOf(biz, r), AdsOf(ad, r)))
  }

  /**
   * Lines 72-101: trim the headers, find the columns, reconcile. The script
   * raises exactly when a column is not found; otherwise every row of the
   * master table is free of NaN, has a brand label or "Unmapped" and two
   * numeric ratios.
   */
  function ReconcileSpec(ad: Table, biz: Table, inv: Table): (out: Outcome)
    requires WellFormed(ad) && WellFormed(biz) && WellFormed(inv)
    ensures out.Raised? <==> FindRolesSpec(TrimHeaders(ad), TrimHeaders(biz), TrimHeaders(inv)).None?
    ensures out.Done? ==> forall m | m in out.master ::
      NoGaps(m) && m.acos.Num? && m.tacos.Num? && m.brand.Str? && IsBrand(m.brand.s)
  {
    var ad', biz', inv' := TrimHeaders(ad), TrimHeaders(biz), TrimHeaders(inv);
    match FindRolesSpec(ad', biz', inv')
    case None => Raised
    case Some(r) =>
      ReconciledRowsComplete(ad', biz', inv', r);
      Done(Reconciled(ad', biz', inv', r))
  }

  /** `find_col(df, keywords)` and the position of the column it returns. */
  method Lookup(headers: seq<string>, keywords: seq<string>) returns (r: Option<nat>)
    ensures r == Locate(headers, keywords)
  {
    var col := FindCol(headers, keywords, []);
    if col.None? {
      return None;
    }
    return Some(IndexOf(headers, col.value));
  }

  /** The `find_col` calls of lines 75, 83 and 84. */
  method FindRoles(ad: Table, biz: Table, inv: Table) returns (r: Option<Roles>)
    ensures r == FindRolesSpec(ad, biz, inv)
  {
    var iAsin := Lookup(inv.headers, ["asin"]);
    var iQty := Lookup(inv.headers, ["quantity available"]);
    var iCond := Lookup(inv.headers, ["warehouse-condition-code"]);
    var iSku := Lookup(inv.headers, ["seller-sku"]);
    var bAsin := Lookup(biz.headers, ["child asin", "asin"]);
    var bSales := Lookup(biz.headers, ["ordered product sales"]);
    var bTitle := Lookup(biz.headers, ["title", "item name"]);
    var aAsin := Lookup(ad.headers, ["advertised asin"]);
    var aSales := Lookup(ad.headers, ["7 day total sales"]);
    var aSpend := Lookup(ad.headers, ["spend"]);
    var aCamp := Lookup(ad.headers, ["campaign name"]);
    if iAsin.None? || iQty.None? || iCond.None? || bAsin.None? || bSales.None? || bTitle.None?
       || aAsin.None? || aSales.None? || aSpend.None? || aCamp.None? {
      return None;
    }
    return Some(Roles(iAsin.value, iQty.value, iCond.value, iSku, bAsin.value, bSales.value, bTitle.value,
                      aAsin.value, aSales.value, aSpend.value, aCamp.value));
  }

  /** Lines 76-80: the sellable rows, tagged with their SKU brand, pivoted. */
  method BuildPivot(inv: Table, r: Roles) returns (pivot: seq<PivotRow>)
    requires WellFormed(inv) && r.iAsin < |inv.headers| && r.iQty < |inv.headers|
    ensures pivot == PivotOf(inv, r)
  {
    var sellable := Sellable(inv.rows, r.iCond);
    var entries := TagBrands(sellable, r.iAsin, r.iQty, r.iSku);
    pivot := Pivot(entries);
  }

  /** Line 86: the business sales column cleaned in place, then the columns line 92 keeps. */
  method BuildBiz(biz: Table, r: Roles) returns (rows: seq<BizRow>)
    requires WellFormed(biz) && r.bAsin < |biz.headers| && r.bSales < |biz.headers| && r.bTitle < |biz.headers|
    ensures rows == BizOf(biz, r)
  {
    HeaderIsColumn(biz, r.bSales);
    var cleaned := CleanColumn(biz.rows, r.bSales);
    rows := BizRows(cleaned, r.bAsin, r.bTitle, r.bSales);
  }

  /** Lines 87 and 90: the ad sales and spend cleaned in place, then aggregated per ASIN. */
  method BuildAds(ad: Table, r: Roles) returns (ads: seq<AdRow>)
    requires WellFormed(ad) && r.aAsin < |ad.headers| && r.aSales < |ad.headers| && r.aSpend < |ad.headers|
    requires r.aCamp < |ad.headers|
    ensures ads == AdsOf(ad, r)
  {
    HeaderIsColumn(ad, r.aSales);
    var rows := CleanColumn(ad.rows, r.aSales);
    rows := CleanColumn(rows, r.aSpend);
    ads := AdAggregate(rows, r.aAsin, r.aSales, r.aSpend, r.aCamp);
  }

  /** Lines 92-101: the two merges, the gaps filled, names, brands and ratios. */
  method Finish(pivot: seq<PivotRow>, biz: seq<BizRow>, ads: seq<AdRow>) returns (master: seq<MasterRow>)
    ensures master == Finished(Merged(pivot, biz, ads))
  {
    master := FirstMerge(pivot, biz);
    master := Coalesced(master);
    master := Filled(SecondMerge(master, ads));
    master := ResolveNames(master);
    master := ResolveBrands(master);
    master := WithRatios(master);
  }

  /** Lines 76-101, stage by stage, on reports whose columns are all found. */
  method Build(ad: Table, biz: Table, inv: Table, r: Roles) returns (master: seq<MasterRow>)
    requires Ready(ad, biz, inv, r)
    ensures master == Reconciled(ad, biz, inv, r)
  {
    var pivot := BuildPivot(inv, r);
    var bizRows := BuildBiz(biz, r);
    var ads := BuildAds(ad, r);
    master := Finish(pivot, bizRows, ads);
  }

  /** The reconciliation as the script runs it. */
  method Reconcile(ad: Table, biz: Table, inv: Table) returns (out: Outcome)
    requires WellFormed(ad) && WellFormed(biz) && WellFormed(inv)
    ensures out == ReconcileSpec(ad, biz, inv)
  {
    var ad', biz', inv' := TrimHeaders(ad), TrimHeaders(biz), TrimHeaders(inv);
    var roles := FindRoles(ad', biz', inv');
    if roles.None? {
      return Raised;
    }
    var master := Build(ad', biz', inv', roles.value);
    return Done(master);
  }

  /** When the script raises: exactly when one of the ten columns it indexes is not found. */
  lemma RaisedIffColumnMissing(ad: Table, biz: Table, inv: Table)
    requires WellFormed(ad) && WellFormed(biz) && WellFormed(inv)
    ensures var a, b, i := TrimHeaders(ad).headers, TrimHeaders(biz).headers, TrimHeaders(inv).headers;
      ReconcileSpec(ad, biz, inv).Raised? <==>
        || FirstMatch(i, ["asin"], []).None? || FirstMatch(i, ["quantity available"], []).None?
        || FirstMatch(i, ["warehouse-condition-code"], []).None?
        || FirstMatch(b, ["child asin", "asin"], []).None? || FirstMatch(b, ["ordered product sales"], []).None?
        || FirstMatch(b, ["title", "item name"], []).None?
        || FirstMatch(a, ["advertised asin"], []).None? || FirstMatch(a, ["7 day total sales"], []).None?
        || FirstMatch(a, ["spend"], []).None? || FirstMatch(a, ["campaign name"], []).None?
  {
  }

  /** Every pivot row has an ASIN and a brand label or "Unmapped". */
  lemma PivotRowsTagged(inv: Table, r: Roles)
    requires WellFormed(inv) && r.iAsin < |inv.headers| && r.iQty < |inv.headers|
    ensures forall p | p in PivotOf(inv, r) :: !p.asin.Missing? && IsBrand(p.brand)
  {
    HeaderIsColumn(inv, r.iAsin);
    HeaderIsColumn(inv, r.iQty);
    PivotTagged(inv.rows, r.iCond, r.iAsin, r.iQty, r.iSku);
  }

  /** Every brand of the master table is a brand label or "Unmapped". */
  lemma ReconciledBrands(ad: Table, biz: Table, inv: Table, r: Roles, m: MasterRow)
    requires Ready(ad, biz, inv, r)
    requires m in Reconciled(ad, biz, inv, r)
    ensures m.brand.Str? && (m.brand.s in Labels() || m.brand.s == Unmapped)
  {
    PivotRowsTagged(inv, r);
    FinishedBrands(PivotOf(inv, r), BizOf(biz, r), AdsOf(ad, r), m);
  }

  /** No cell of the master table is NaN, and every item name is a real name or "N/A". */
  lemma ReconciledComplete(ad: Table, biz: Table, inv: Table, r: Roles, m: MasterRow)
    requires Ready(ad, biz, inv, r)
    requires m in Reconciled(ad, biz, inv, r)
    ensures NoGaps(m) && !m.itemName.Missing? && !IsZero(m.itemName) && m.acos.Num? && m.tacos.Num?
  {
    FinishedComplete(PivotOf(inv, r), BizOf(biz, r), AdsOf(ad, r), m);
  }

  /** Every row of the master table is free of NaN, with a brand and two numeric ratios. */
  lemma ReconciledRowsComplete(ad: Table, biz: Table, inv: Table, r: Roles)
    requires Ready(ad, biz, inv, r)
    ensures forall m | m in Reconciled(ad, biz, inv, r) ::
      NoGaps(m) && m.acos.Num? && m.tacos.Num? && m.brand.Str? && IsBrand(m.brand.s)
  {
    forall m | m in Reconciled(ad, biz, inv, r)
      ensures NoGaps(m) && m.acos.Num? && m.tacos.Num? && m.brand.Str? && IsBrand(m.brand.s)
    {
      ReconciledComplete(ad, biz, inv, r, m);
      ReconciledBrands(ad, biz, inv, r, m);
    }
  }

  /**
   * Every sellable inventory row with an ASIN reaches the master table: its ASIN
   * is a `Final_ASIN` whose stock is the sum of its (ASIN, brand) group, and a
   * brand its SKU names is kept.
   */
  lemma SellableRowReported(ad: Table, biz: Table, inv: Table, r: Roles, k: nat)
    requires Ready(ad, biz, inv, r)
    requires k < |inv.rows| && SellableRow(inv.rows[k], r.iCond) && !inv.rows[k][r.iAsin].Missing?
    ensures var row, brand := inv.rows[k], SkuBrand(inv.rows[k], r.iSku);
      StockReported(Reconciled(ad, biz, inv, r), row[r.iAsin],
                    StockOfGroup(inv, r, (row[r.iAsin], brand)), brand)
  {
    HeaderIsColumn(inv, r.iAsin);
    HeaderIsColumn(inv, r.iQty);
    FinishedKeepsSellable(inv.rows, r.iCond, r.iAsin, r.iQty, r.iSku, BizOf(biz, r), AdsOf(ad, r), k);
  }

  /**
   * Every business report row reaches the master table, with its ASIN, title
   * and cleaned sales, NaN read as 0.
   */
  lemma BusinessRowReported(ad: Table, biz: Table, inv: Table, r: Roles, k: nat)
    requires Ready(ad, biz, inv, r)
    requires k < |biz.rows|
    ensures var row := biz.rows[k][r.bSales := CleanNumeric(biz.rows[k][r.bSales])];
      exists m | m in Reconciled(ad, biz, inv, r) ::
        && m.bizAsin == FillZero(row[r.bAsin]) && m.title == FillZero(row[r.bTitle])
        && m.bizSales == FillZero(row[r.bSales])
  {
    HeaderIsColumn(biz, r.bSales);
    var row := Cleaned(biz.rows, r.bSales)[k];
    var bizRows := BizOf(biz, r);
    assert bizRows[k] == BizRow(row[r.bAsin], row[r.bTitle], row[r.bSales]);
    FinishedKeepsBiz(PivotOf(inv, r), bizRows, AdsOf(ad, r), bizRows[k]);
  }

  /**
   * Every advertised ASIN reaches the master table once aggregated, with its
   * summed sales and spend and the ACOS computed from them.
   */
  lemma AdvertisedAsinReported(ad: Table, biz: Table, inv: Table, r: Roles, k: nat)
    requires Ready(ad, biz, inv, r)
    requires k < |ad.rows| && !AdRowsOf(ad, r)[k][r.aAsin].Missing?
    ensures exists i | 0 <= i < |AdsOf(ad, r)| :: var a := AdsOf(ad, r)[i];
      && a.asin == AdRowsOf(ad, r)[k][r.aAsin]
      && exists m | m in Reconciled(ad, biz, inv, r) ::
        && m.adAsin == a.asin && m.adSales == Num(a.sales) && m.adSpend == Num(a.spend)
        && m.acos == Num(SafeRatio(a.spend, a.sales))
  {
    var rows := AdRowsOf(ad, r);
    var ads := AdsOf(ad, r);
    AdReportRowCovered(rows, r.aAsin, r.aSales, r.aSpend, r.aCamp, rows[k]);
    var i :| 0 <= i < |ads| && ads[i].asin == rows[k][r.aAsin];
    FinishedKeepsAd(PivotOf(inv, r), BizOf(biz, r), ads, ads[i]);
  }

  /**
   * An advertised ASIN that is neither in the sellable inventory nor in the
   * business report stays in the master table with `Final_ASIN` 0: the second
   * merge joins on `Final_ASIN` and `fillna(0)` runs after it.
   */
  lemma AdOnlyAsinHasZeroFinalAsin(ad: Table, biz: Table, inv: Table, r: Roles, i: nat)
    requires Ready(ad, biz, inv, r)
    requires i < |AdsOf(ad, r)|
    requires forall p | p in PivotOf(inv, r) :: p.asin != AdsOf(ad, r)[i].asin
    requires forall b | b in BizOf(biz, r) :: b.asin != AdsOf(ad, r)[i].asin
    ensures exists m | m in Reconciled(ad, biz, inv, r) ::
      m.finalAsin == Num(0.0) && m.adAsin == FillZero(AdsOf(ad, r)[i].asin)
  {
    PivotRowsTagged(inv, r);
    FinishedAdOnly(PivotOf(inv, r), BizOf(biz, r), AdsOf(ad, r), AdsOf(ad, r)[i]);
  }
}

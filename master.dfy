/**
 * The master table (app.py lines 92-94): the inventory pivot merged with the
 * business rows, the ASIN coalesced, then merged with the ad aggregate and
 * every gap filled with 0.
 */
module Master {
  import opened Wrappers
  import opened Cells
  import opened Tables
  import opened Merge
  import opened Inventory
  import opened Ads
  import opened Brands

  /** One row of the business report cut down to its ASIN, title and sales columns. */
  datatype BizRow = BizRow(asin: Cell, title: Cell, sales: Cell)

  /** The three business-report columns the merge takes, row by row. */
  function BizRows(rows: seq<seq<Cell>>, asin: nat, title: nat, sales: nat): (r: seq<BizRow>)
    requires HasColumn(rows, asin) && HasColumn(rows, title) && HasColumn(rows, sales)
    ensures |r| == |rows|
    ensures forall i | 0 <= i < |rows| :: r[i] == BizRow(rows[i][asin], rows[i][title], rows[i][sales])
  {
    seq(|rows|, i requires 0 <= i < |rows| => BizRow(rows[i][asin], rows[i][title], rows[i][sales]))
  }

  /**
   * One row of `master`. The columns are those of the inventory pivot
   * (`Final_ASIN`, `Brand`, `Stock`), of the business report (its ASIN, title
   * and sales columns), of the ad aggregate (its ASIN, sales, spend and
   * campaign columns), then `Item Name`, `ACOS` and `TACOS`. A column that a
   * row has no value for, or that does not exist yet, holds NaN.
   */
  datatype MasterRow = MasterRow(
    finalAsin: Cell, brand: Cell, stock: Cell,
    bizAsin: Cell, title: Cell, bizSales: Cell,
    adAsin: Cell, adSales: Cell, adSpend: Cell, campaign: Cell,
    itemName: Cell, acos: Cell, tacos: Cell)

  /** A row with no value in any column. */
  const Blank := MasterRow(Missing, Missing, Missing, Missing, Missing, Missing,
                           Missing, Missing, Missing, Missing, Missing, Missing, Missing)

  /** A row of the first merge: the pivot's columns, the business columns, NaN where a side is absent. */
  function FromFirstMerge(p: (Option<PivotRow>, Option<BizRow>)): MasterRow {
    var inv := if p.0.Some? then Blank.(finalAsin := p.0.value.asin, brand := Str(p.0.value.brand), stock := Num(p.0.value.stock))
               else Blank;
    if p.1.Some? then inv.(bizAsin := p.1.value.asin, title := p.1.value.title, bizSales := p.1.value.sales) else inv
  }

  /** The outer merge of the pivot and the business rows, on `Final_ASIN` against the business ASIN. */
  function FirstMerge(pivot: seq<PivotRow>, biz: seq<BizRow>): (r: seq<MasterRow>)
    ensures var j := OuterJoin(pivot, biz, (p: PivotRow) => p.asin, (b: BizRow) => b.asin);
      |r| == |j| && forall i | 0 <= i < |j| :: r[i] == FromFirstMerge(j[i])
  {
    var j := OuterJoin(pivot, biz, (p: PivotRow) => p.asin, (b: BizRow) => b.asin);
    seq(|j|, i requires 0 <= i < |j| => FromFirstMerge(j[i]))
  }

  /** Where a merged row has no `Final_ASIN`, it takes the business ASIN instead. */
  function Coalesced(rows: seq<MasterRow>): (r: seq<MasterRow>)
    ensures |r| == |rows|
    ensures forall i | 0 <= i < |rows| ::
      r[i] == rows[i].(finalAsin := if rows[i].finalAsin.Missing? then rows[i].bizAsin else rows[i].finalAsin)
  {
    seq(|rows|, i requires 0 <= i < |rows| =>
      rows[i].(finalAsin := if rows[i].finalAsin.Missing? then rows[i].bizAsin else rows[i].finalAsin))
  }

  /** A row of the second merge: the master row (or a blank one) with the ad columns of its partner. */
  function FromSecondMerge(p: (Option<MasterRow>, Option<AdRow>)): MasterRow {
    var m := if p.0.Some? then p.0.value else Blank;
    if p.1.Some? then
      m.(adAsin := p.1.value.asin, adSales := Num(p.1.value.sales), adSpend := Num(p.1.value.spend),
         campaign := p.1.value.campaign)
    else m
  }

  /** The outer merge of the master rows and the ad groups, on `Final_ASIN` against the advertised ASIN. */
  function SecondMerge(master: seq<MasterRow>, ads: seq<AdRow>): (r: seq<MasterRow>)
    ensures var j := OuterJoin(master, ads, (m: MasterRow) => m.finalAsin, (a: AdRow) => a.asin);
      |r| == |j| && forall i | 0 <= i < |j| :: r[i] == FromSecondMerge(j[i])
  {
    var j := OuterJoin(master, ads, (m: MasterRow) => m.finalAsin, (a: AdRow) => a.asin);
    seq(|j|, i requires 0 <= i < |j| => FromSecondMerge(j[i]))
  }

  /**
   * Zero-filling one merged row: every NaN in the ten merged columns becomes 0,
   * leaving no gap; the name and ratio columns, set later, are untouched.
   */
  function FillRow(m: MasterRow): (r: MasterRow)
    ensures NoGaps(r)
    ensures r.itemName == m.itemName && r.acos == m.acos && r.tacos == m.tacos
  {
    m.(finalAsin := FillZero(m.finalAsin), brand := FillZero(m.brand), stock := FillZero(m.stock),
       bizAsin := FillZero(m.bizAsin), title := FillZero(m.title), bizSales := FillZero(m.bizSales),
       adAsin := FillZero(m.adAsin), adSales := FillZero(m.adSales), adSpend := FillZero(m.adSpend),
       campaign := FillZero(m.campaign))
  }

  /** No merged column of the row is NaN. */
  predicate NoGaps(m: MasterRow) {
    && !m.finalAsin.Missing? && !m.brand.Missing? && !m.stock.Missing?
    && !m.bizAsin.Missing? && !m.title.Missing? && !m.bizSales.Missing?
    && !m.adAsin.Missing? && !m.adSales.Missing? && !m.adSpend.Missing? && !m.campaign.Missing?
  }

  /** Zero-filling the whole merged table, row by row. */
  function Filled(rows: seq<MasterRow>): (r: seq<MasterRow>)
    ensures |r| == |rows| && forall i | 0 <= i < |rows| :: r[i] == FillRow(rows[i])
  {
    seq(|rows|, i requires 0 <= i < |rows| => FillRow(rows[i]))
  }

  /** Filling leaves no gap, and changes no value that was there. */
  lemma FillRowFillsGapsOnly(m: MasterRow)
    ensures NoGaps(FillRow(m))
    ensures var r := FillRow(m);
      && (m.finalAsin.Missing? ==> r.finalAsin == Num(0.0)) && (!m.finalAsin.Missing? ==> r.finalAsin == m.finalAsin)
      && (!m.brand.Missing? ==> r.brand == m.brand) && (!m.stock.Missing? ==> r.stock == m.stock)
      && (!m.bizAsin.Missing? ==> r.bizAsin == m.bizAsin) && (!m.title.Missing? ==> r.title == m.title)
      && (!m.bizSales.Missing? ==> r.bizSales == m.bizSales)
      && (!m.adAsin.Missing? ==> r.adAsin == m.adAsin) && (!m.adSales.Missing? ==> r.adSales == m.adSales)
      && (!m.adSpend.Missing? ==> r.adSpend == m.adSpend) && (!m.campaign.Missing? ==> r.campaign == m.campaign)
  {
  }

  /**
   * The merged table: the outer merge with the business rows, the coalesced
   * ASIN, the outer merge with the ad aggregate and the zero fill. No merged
   * cell of it is NaN.
   */
  function Merged(pivot: seq<PivotRow>, biz: seq<BizRow>, ads: seq<AdRow>): (r: seq<MasterRow>)
    ensures forall m | m in r :: NoGaps(m)
  {
    Filled(SecondMerge(Coalesced(FirstMerge(pivot, biz)), ads))
  }

  /** The first merge keeps every pivot row, with its ASIN, brand and stock. */
  lemma FirstMergeKeepsPivot(pivot: seq<PivotRow>, biz: seq<BizRow>, p: PivotRow)
    requires p in pivot
    ensures exists m | m in FirstMerge(pivot, biz) :: m.finalAsin == p.asin && m.brand == Str(p.brand) && m.stock == Num(p.stock)
  {
    var j := OuterJoin(pivot, biz, (p: PivotRow) => p.asin, (b: BizRow) => b.asin);
    OuterJoinKeepsLeft(pivot, biz, (p: PivotRow) => p.asin, (b: BizRow) => b.asin, p);
    var q :| q in j && q.0 == Some(p);
    var k :| 0 <= k < |j| && j[k] == q;
    var fm := FirstMerge(pivot, biz);
    assert fm[k] == FromFirstMerge(q);
    assert fm[k].finalAsin == p.asin && fm[k].brand == Str(p.brand) && fm[k].stock == Num(p.stock);
    assert fm[k] in fm;
  }

  /** The first merge keeps every business row, with its ASIN, title and sales. */
  lemma FirstMergeKeepsBiz(pivot: seq<PivotRow>, biz: seq<BizRow>, b: BizRow)
    requires b in biz
    ensures exists m | m in FirstMerge(pivot, biz) :: m.bizAsin == b.asin && m.title == b.title && m.bizSales == b.sales
  {
    var j := OuterJoin(pivot, biz, (p: PivotRow) => p.asin, (b: BizRow) => b.asin);
    OuterJoinKeepsRight(pivot, biz, (p: PivotRow) => p.asin, (b: BizRow) => b.asin, b);
    var q :| q in j && q.1 == Some(b);
    var k :| 0 <= k < |j| && j[k] == q;
    assert FirstMerge(pivot, biz)[k] in FirstMerge(pivot, biz);
  }

  /**
   * After coalescing, a row's `Final_ASIN` is the pivot's ASIN when the row has
   * a pivot side, and otherwise the business ASIN.
   */
  lemma CoalescedAsin(pivot: seq<PivotRow>, biz: seq<BizRow>, i: nat)
    requires forall p | p in pivot :: !p.asin.Missing?
    requires i < |FirstMerge(pivot, biz)|
    ensures var j := OuterJoin(pivot, biz, (p: PivotRow) => p.asin, (b: BizRow) => b.asin);
      && |Coalesced(FirstMerge(pivot, biz))| == |j|
      && (j[i].0.Some? ==> Coalesced(FirstMerge(pivot, biz))[i].finalAsin == j[i].0.value.asin)
      && (j[i].0.None? ==> Coalesced(FirstMerge(pivot, biz))[i].finalAsin == j[i].1.value.asin)
  {
    var j := OuterJoin(pivot, biz, (p: PivotRow) => p.asin, (b: BizRow) => b.asin);
    assert j[i] in j;
    OuterJoinSound(pivot, biz, (p: PivotRow) => p.asin, (b: BizRow) => b.asin, j[i]);
  }

  /** The second merge keeps every master row, and its columns other than the ad columns. */
  lemma SecondMergeKeepsMaster(master: seq<MasterRow>, ads: seq<AdRow>, m: MasterRow)
    requires m in master
    ensures exists r | r in SecondMerge(master, ads) ::
      && r.finalAsin == m.finalAsin && r.brand == m.brand && r.stock == m.stock
      && r.bizAsin == m.bizAsin && r.title == m.title && r.bizSales == m.bizSales
  {
    var j := OuterJoin(master, ads, (m: MasterRow) => m.finalAsin, (a: AdRow) => a.asin);
    OuterJoinKeepsLeft(master, ads, (m: MasterRow) => m.finalAsin, (a: AdRow) => a.asin, m);
    var q :| q in j && q.0 == Some(m);
    var k :| 0 <= k < |j| && j[k] == q;
    assert SecondMerge(master, ads)[k] in SecondMerge(master, ads);
  }

  /** The second merge keeps every ad aggregate row, with its ASIN, sales, spend and campaign. */
  lemma SecondMergeKeepsAd(master: seq<MasterRow>, ads: seq<AdRow>, a: AdRow)
    requires a in ads
    ensures exists r | r in SecondMerge(master, ads) ::
      r.adAsin == a.asin && r.adSales == Num(a.sales) && r.adSpend == Num(a.spend) && r.campaign == a.campaign
  {
    var j := OuterJoin(master, ads, (m: MasterRow) => m.finalAsin, (a: AdRow) => a.asin);
    OuterJoinKeepsRight(master, ads, (m: MasterRow) => m.finalAsin, (a: AdRow) => a.asin, a);
    var q :| q in j && q.1 == Some(a);
    var k :| 0 <= k < |j| && j[k] == q;
    var sm := SecondMerge(master, ads);
    assert sm[k] == FromSecondMerge(q);
    assert sm[k] in sm;
  }

  /**
   * An ad row whose ASIN is no row's `Final_ASIN` stands alone: every column
   * but the ad columns is NaN, so it reaches the filled table with a
   * `Final_ASIN` of 0.
   */
  lemma AdOnlyRowHasZeroAsin(master: seq<MasterRow>, ads: seq<AdRow>, a: AdRow)
    requires a in ads
    requires forall m | m in master :: m.finalAsin != a.asin
    ensures exists r | r in Filled(SecondMerge(master, ads)) ::
      r.finalAsin == Num(0.0) && r.adAsin == FillZero(a.asin) && r.adSales == Num(a.sales) && r.adSpend == Num(a.spend)
  {
    var kl, kr := (m: MasterRow) => m.finalAsin, (a: AdRow) => a.asin;
    var j := OuterJoin(master, ads, kl, kr);
    assert !HasKey(master, kl, kr(a));
    OuterJoinKeepsRight(master, ads, kl, kr, a);
    var q :| q in j && q.1 == Some(a);
    OuterJoinSound(master, ads, kl, kr, q);
    var k :| 0 <= k < |j| && j[k] == q;
    var s := SecondMerge(master, ads);
    assert s[k] == Blank.(adAsin := a.asin, adSales := Num(a.sales), adSpend := Num(a.spend), campaign := a.campaign);
    assert Filled(s)[k] in Filled(s);
  }

  /** A merged brand: a label or "Unmapped" from the pivot, or the 0 that fills a row without one. */
  predicate BrandCell(b: Cell) {
    b == Num(0.0) || (b.Str? && (b.s in Labels() || b.s == Unmapped))
  }

  /** Every row, filled, is a row of the filled table. */
  lemma FilledHas(s: seq<MasterRow>, m: MasterRow)
    requires m in s
    ensures FillRow(m) in Filled(s)
  {
    var t :| 0 <= t < |s| && s[t] == m;
    assert Filled(s)[t] == FillRow(m);
  }

  /** A first-merge row with a pivot ASIN keeps every column through coalescing. */
  lemma CoalescedHas(first: seq<MasterRow>, m: MasterRow)
    requires m in first
    ensures m.(finalAsin := if m.finalAsin.Missing? then m.bizAsin else m.finalAsin) in Coalesced(first)
  {
    var k :| 0 <= k < |first| && first[k] == m;
    assert Coalesced(first)[k] == m.(finalAsin := if m.finalAsin.Missing? then m.bizAsin else m.finalAsin);
  }

  /** The merged table keeps every pivot row, with its ASIN as `Final_ASIN`, its brand and its stock. */
  lemma MergedKeepsPivot(pivot: seq<PivotRow>, biz: seq<BizRow>, ads: seq<AdRow>, p: PivotRow)
    requires forall q | q in pivot :: !q.asin.Missing?
    requires p in pivot
    ensures exists m | m in Merged(pivot, biz, ads) ::
      m.finalAsin == p.asin && m.brand == Str(p.brand) && m.stock == Num(p.stock)
  {
    var first := FirstMerge(pivot, biz);
    FirstMergeKeepsPivot(pivot, biz, p);
    var m1 :| m1 in first && m1.finalAsin == p.asin && m1.brand == Str(p.brand) && m1.stock == Num(p.stock);
    CoalescedHas(first, m1);
    var co := Coalesced(first);
    SecondMergeKeepsMaster(co, ads, m1);
    var s := SecondMerge(co, ads);
    var m2 :| m2 in s && m2.finalAsin == p.asin && m2.brand == Str(p.brand) && m2.stock == Num(p.stock);
    FilledHas(s, m2);
  }

  /** The merged table keeps every business row, gaps filled with 0. */
  lemma MergedKeepsBiz(pivot: seq<PivotRow>, biz: seq<BizRow>, ads: seq<AdRow>, b: BizRow)
    requires b in biz
    ensures exists m | m in Merged(pivot, biz, ads) ::
      m.bizAsin == FillZero(b.asin) && m.title == FillZero(b.title) && m.bizSales == FillZero(b.sales)
  {
    var first := FirstMerge(pivot, biz);
    FirstMergeKeepsBiz(pivot, biz, b);
    var m1 :| m1 in first && m1.bizAsin == b.asin && m1.title == b.title && m1.bizSales == b.sales;
    CoalescedHas(first, m1);
    var co := Coalesced(first);
    var c1 := m1.(finalAsin := if m1.finalAsin.Missing? then m1.bizAsin else m1.finalAsin);
    SecondMergeKeepsMaster(co, ads, c1);
    var s := SecondMerge(co, ads);
    var m2 :| m2 in s && m2.bizAsin == b.asin && m2.title == b.title && m2.bizSales == b.sales;
    FilledHas(s, m2);
  }

  /** The merged table keeps every ad aggregate row, with its sums. */
  lemma MergedKeepsAd(pivot: seq<PivotRow>, biz: seq<BizRow>, ads: seq<AdRow>, a: AdRow)
    requires a in ads
    ensures exists m | m in Merged(pivot, biz, ads) ::
      m.adAsin == FillZero(a.asin) && m.adSales == Num(a.sales) && m.adSpend == Num(a.spend)
      && m.campaign == FillZero(a.campaign)
  {
    var co := Coalesced(FirstMerge(pivot, biz));
    SecondMergeKeepsAd(co, ads, a);
    var s := SecondMerge(co, ads);
    var m2 :| m2 in s && m2.adAsin == a.asin && m2.adSales == Num(a.sales) && m2.adSpend == Num(a.spend) && m2.campaign == a.campaign;
    FilledHas(s, m2);
    var m := FillRow(m2);
    assert m.adAsin == FillZero(a.asin) && m.adSales == Num(a.sales) && m.adSpend == Num(a.spend);
    assert m.campaign == FillZero(a.campaign);
  }

  /** No merged row has a gap. */
  lemma MergedNoGaps(pivot: seq<PivotRow>, biz: seq<BizRow>, ads: seq<AdRow>, m: MasterRow)
    requires m in Merged(pivot, biz, ads)
    ensures NoGaps(m)
  {
    var s := SecondMerge(Coalesced(FirstMerge(pivot, biz)), ads);
    var t :| 0 <= t < |s| && Filled(s)[t] == m;
    FillRowFillsGapsOnly(s[t]);
  }

  /** After the first merge every brand is a pivot brand or NaN. */
  lemma FirstMergeBrand(pivot: seq<PivotRow>, biz: seq<BizRow>, m: MasterRow)
    requires forall p | p in pivot :: p.brand in Labels() || p.brand == Unmapped
    requires m in Coalesced(FirstMerge(pivot, biz))
    ensures m.brand.Missing? || BrandCell(m.brand)
  {
    var first := FirstMerge(pivot, biz);
    var j := OuterJoin(pivot, biz, (p: PivotRow) => p.asin, (b: BizRow) => b.asin);
    var k :| 0 <= k < |first| && Coalesced(first)[k] == m;
    assert j[k] in j;
    OuterJoinSound(pivot, biz, (p: PivotRow) => p.asin, (b: BizRow) => b.asin, j[k]);
  }

  /** Every merged brand is a label, "Unmapped", or 0. */
  lemma MergedBrands(pivot: seq<PivotRow>, biz: seq<BizRow>, ads: seq<AdRow>, m: MasterRow)
    requires forall p | p in pivot :: p.brand in Labels() || p.brand == Unmapped
    requires m in Merged(pivot, biz, ads)
    ensures BrandCell(m.brand)
  {
    var co := Coalesced(FirstMerge(pivot, biz));
    var j := OuterJoin(co, ads, (m: MasterRow) => m.finalAsin, (a: AdRow) => a.asin);
    var s := SecondMerge(co, ads);
    var t :| 0 <= t < |s| && Filled(s)[t] == m;
    assert j[t] in j;
    OuterJoinSound(co, ads, (m: MasterRow) => m.finalAsin, (a: AdRow) => a.asin, j[t]);
    if j[t].0.Some? {
      FirstMergeBrand(pivot, biz, j[t].0.value);
    }
  }

  /** Every coalesced `Final_ASIN` is the ASIN of a pivot row or of a business row. */
  lemma CoalescedAsinFrom(pivot: seq<PivotRow>, biz: seq<BizRow>, m: MasterRow)
    requires forall p | p in pivot :: !p.asin.Missing?
    requires m in Coalesced(FirstMerge(pivot, biz))
    ensures (exists p | p in pivot :: m.finalAsin == p.asin) || (exists b | b in biz :: m.finalAsin == b.asin)
  {
    var first := FirstMerge(pivot, biz);
    var j := OuterJoin(pivot, biz, (p: PivotRow) => p.asin, (b: BizRow) => b.asin);
    var k :| 0 <= k < |first| && Coalesced(first)[k] == m;
    CoalescedAsin(pivot, biz, k);
    assert j[k] in j;
    OuterJoinSound(pivot, biz, (p: PivotRow) => p.asin, (b: BizRow) => b.asin, j[k]);
  }

  /**
   * An ad row whose ASIN is neither a pivot ASIN nor a business ASIN ends up in
   * a row of its own whose `Final_ASIN` is 0.
   */
  lemma MergedAdOnly(pivot: seq<PivotRow>, biz: seq<BizRow>, ads: seq<AdRow>, a: AdRow)
    requires forall p | p in pivot :: !p.asin.Missing?
    requires a in ads
    requires forall p | p in pivot :: p.asin != a.asin
    requires forall b | b in biz :: b.asin != a.asin
    ensures exists m | m in Merged(pivot, biz, ads) ::
      m.finalAsin == Num(0.0) && m.adAsin == FillZero(a.asin) && m.adSales == Num(a.sales) && m.adSpend == Num(a.spend)
  {
    var co := Coalesced(FirstMerge(pivot, biz));
    forall m | m in co ensures m.finalAsin != a.asin {
      CoalescedAsinFrom(pivot, biz, m);
    }
    AdOnlyRowHasZeroAsin(co, ads, a);
  }
}

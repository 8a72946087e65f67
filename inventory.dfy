/**
 * The inventory half of the reconciliation (app.py lines 75-80): keep the
 * sellable rows, tag each with the brand its SKU names, and pivot the stock by
 * (ASIN, brand).
 */
module Inventory {
  import opened Wrappers
  import opened Text
  import opened Cells
  import opened Brands
  import opened Grouping
  import opened Tables

  /** A condition code reads SELLABLE once rendered as text, stripped and upper-cased. */
  predicate IsSellable(cond: Cell) {
    Upper(Strip(Render(cond))) == "SELLABLE"
  }

  /** "sellable" in any mix of upper and lower case, with any whitespace around it, is a sellable condition. */
  lemma SellableSpellings(pre: string, core: string, post: string)
    requires forall i | 0 <= i < |pre| :: IsSpace(pre[i])
    requires forall i | 0 <= i < |post| :: IsSpace(post[i])
    requires |core| == 8 && forall i | 0 <= i < 8 :: UpperChar(core[i]) == "SELLABLE"[i]
    ensures IsSellable(Str(pre + core + post))
  {
    assert core[0] in "sS" && core[7] in "eE" by {
      assert UpperChar(core[0]) == 'S' && UpperChar(core[7]) == 'E';
    }
    StripPadded(pre, core, post);
    assert Upper(core) == "SELLABLE" by {
      forall i | 0 <= i < 8 ensures Upper(core)[i] == "SELLABLE"[i] {
        assert Upper(core)[i] == UpperChar(core[i]);
      }
    }
  }

  /** NaN renders as "nan" and so is never a sellable condition. */
  lemma MissingNotSellable()
    ensures !IsSellable(Missing)
  {
    assert Render(Missing) == "nan";
    StripPadded("", "nan", "");
    assert "" + "nan" + "" == "nan";
  }

  /** The row has a cell in column `col` and that cell is a sellable condition. */
  predicate SellableRow(row: seq<Cell>, col: nat) {
    col < |row| && IsSellable(row[col])
  }

  /** The inventory rows whose condition code reads SELLABLE, in their order, with their repeats. */
  function Sellable(rows: seq<seq<Cell>>, cond: nat): (r: seq<seq<Cell>>)
    ensures forall row | row in r :: row in rows && SellableRow(row, cond)
    ensures forall row | row in rows && SellableRow(row, cond) :: row in r
    ensures forall row | row in rows :: multiset(r)[row] == if SellableRow(row, cond) then multiset(rows)[row] else 0
    ensures forall c: nat | HasColumn(rows, c) :: HasColumn(r, c)
  {
    Filter(rows, (row: seq<Cell>) => SellableRow(row, cond))
  }

  /** One sellable inventory row as the pivot sees it: its ASIN, its `Mapped_Brand` and its quantity. */
  datatype Entry = Entry(asin: Cell, brand: string, qty: Cell)

  /** The SKU cell of a row, when the inventory has a SKU column. */
  function SkuCell(row: seq<Cell>, sku: Option<nat>): Option<Cell> {
    if sku.Some? && sku.value < |row| then Some(row[sku.value]) else None
  }

  /**
   * The `Mapped_Brand` of one sellable row: `get_brand_robust` given the SKU
   * column only. It is a label or "Unmapped", and "Unmapped" when the report
   * has no SKU column.
   */
  function SkuBrand(row: seq<Cell>, sku: Option<nat>): (r: string)
    ensures IsBrand(r)
    ensures sku.None? ==> r == Unmapped
  {
    ClassifyIsLabel(ScanText(None, SkuCell(row, sku), None));
    NoFieldsUnmapped();
    Classify(ScanText(None, SkuCell(row, sku), None))
  }

  /** The sellable rows as entries, each tagged with its SKU brand. */
  function Tagged(rows: seq<seq<Cell>>, asin: nat, qty: nat, sku: Option<nat>): (es: seq<Entry>)
    requires HasColumn(rows, asin) && HasColumn(rows, qty)
    ensures |es| == |rows|
    ensures forall i | 0 <= i < |rows| :: es[i] == Entry(rows[i][asin], SkuBrand(rows[i], sku), rows[i][qty])
  {
    seq(|rows|, i requires 0 <= i < |rows| => Entry(rows[i][asin], SkuBrand(rows[i], sku), rows[i][qty]))
  }

  /**
   * The `Mapped_Brand` column of the sellable rows: classifies the rows one by
   * one and pairs each row's ASIN and quantity with its brand.
   */
  method TagBrands(rows: seq<seq<Cell>>, asin: nat, qty: nat, sku: Option<nat>) returns (es: seq<Entry>)
    requires HasColumn(rows, asin) && HasColumn(rows, qty)
    ensures es == Tagged(rows, asin, qty, sku)
  {
    ghost var tagged := Tagged(rows, asin, qty, sku);
    es := [];
    for i := 0 to |rows|
      invariant es == tagged[..i]
    {
      var brand := GetBrandRobust(None, SkuCell(rows[i], sku), None);
      assert brand == SkuBrand(rows[i], sku);
      assert tagged[i] == Entry(rows[i][asin], brand, rows[i][qty]);
      es := es + [Entry(rows[i][asin], brand, rows[i][qty])];
      assert tagged[..i + 1] == tagged[..i] + [tagged[i]];
    }
    assert tagged[..|rows|] == tagged;
  }


  /** One row of `inv_pivot`: `Final_ASIN`, `Brand`, `Stock`. */
  datatype PivotRow = PivotRow(asin: Cell, brand: string, stock: real)

  /** The entries `groupby` keeps: those whose ASIN is not NaN. */
  function Keyed(es: seq<Entry>): (r: seq<Entry>)
    ensures forall e | e in r :: e in es && !e.asin.Missing?
    ensures forall e | e in es && !e.asin.Missing? :: e in r
    ensures forall e | e in es :: multiset(r)[e] == if e.asin.Missing? then 0 else multiset(es)[e]
  {
    Filter(es, (e: Entry) => !e.asin.Missing?)
  }

  /** The group key of each entry. */
  function Keys(es: seq<Entry>): (ks: seq<(Cell, string)>)
    ensures |ks| == |es| && forall i | 0 <= i < |es| :: ks[i] == (es[i].asin, es[i].brand)
  {
    seq(|es|, i requires 0 <= i < |es| => (es[i].asin, es[i].brand))
  }

  /** What each entry adds to its group's sum: its quantity, NaN counting as nothing. */
  function Quantities(es: seq<Entry>): (vs: seq<real>)
    ensures |vs| == |es| && forall i | 0 <= i < |es| :: vs[i] == Value(es[i].qty)
  {
    seq(|es|, i requires 0 <= i < |es| => Value(es[i].qty))
  }

  /** The stock of one (ASIN, brand) pair. */
  function StockOf(es: seq<Entry>, key: (Cell, string)): real {
    var kept := Keyed(es);
    SumOf(Keys(kept), Quantities(kept), key)
  }

  /**
   * The entries grouped by ASIN and mapped brand: one row per distinct pair
   * with an ASIN, in order of first appearance, holding the pair's summed quantity.
   */
  function Pivot(es: seq<Entry>): (r: seq<PivotRow>)
    ensures |r| == |Distinct(Keys(Keyed(es)))|
    ensures forall i | 0 <= i < |r| :: (r[i].asin, r[i].brand) == Distinct(Keys(Keyed(es)))[i]
    ensures forall i | 0 <= i < |r| :: r[i].stock == StockOf(es, (r[i].asin, r[i].brand))
  {
    var d := Distinct(Keys(Keyed(es)));
    seq(|d|, i requires 0 <= i < |d| => PivotRow(d[i].0, d[i].1, StockOf(es, d[i])))
  }

  /** Each (ASIN, brand) pair yields at most one pivot row. */
  lemma PivotKeysDistinct(es: seq<Entry>, i: nat, j: nat)
    requires i < j < |Pivot(es)|
    ensures (Pivot(es)[i].asin, Pivot(es)[i].brand) != (Pivot(es)[j].asin, Pivot(es)[j].brand)
  {
  }

  /** Every pivot row comes from an entry with that ASIN and brand, and its ASIN is not NaN. */
  lemma PivotRowFromEntry(es: seq<Entry>, i: nat)
    requires i < |Pivot(es)|
    ensures !Pivot(es)[i].asin.Missing?
    ensures exists e | e in es :: e.asin == Pivot(es)[i].asin && e.brand == Pivot(es)[i].brand
  {
    var kept := Keyed(es);
    var ks := Keys(kept);
    var key := Distinct(ks)[i];
    assert key in ks;
    var k :| 0 <= k < |ks| && ks[k] == key;
    assert kept[k] in kept;
  }

  /** Every entry with an ASIN yields a pivot row for its (ASIN, brand) pair. */
  lemma PivotCoversEntry(es: seq<Entry>, e: Entry)
    requires e in es && !e.asin.Missing?
    ensures exists i | 0 <= i < |Pivot(es)| :: Pivot(es)[i].asin == e.asin && Pivot(es)[i].brand == e.brand
  {
    var kept := Keyed(es);
    var ks := Keys(kept);
    var k :| 0 <= k < |kept| && kept[k] == e;
    assert ks[k] == (e.asin, e.brand) && ks[k] in ks;
    var d := Distinct(ks);
    var i :| 0 <= i < |d| && d[i] == (e.asin, e.brand);
    assert (Pivot(es)[i].asin, Pivot(es)[i].brand) == d[i];
  }

  /** The total of a pivot's `Stock` column. */
  function StockTotal(r: seq<PivotRow>): real {
    if r == [] then 0.0 else StockTotal(r[..|r| - 1]) + r[|r| - 1].stock
  }

  lemma {:induction false} StockTotalOver(es: seq<Entry>, d: seq<(Cell, string)>)
    ensures StockTotal(seq(|d|, i requires 0 <= i < |d| => PivotRow(d[i].0, d[i].1, StockOf(es, d[i]))))
      == TotalOver(d, Keys(Keyed(es)), Quantities(Keyed(es)))
  {
    if d != [] {
      var r := seq(|d|, i requires 0 <= i < |d| => PivotRow(d[i].0, d[i].1, StockOf(es, d[i])));
      var d' := d[..|d| - 1];
      assert r[..|r| - 1] == seq(|d'|, i requires 0 <= i < |d'| => PivotRow(d'[i].0, d'[i].1, StockOf(es, d'[i])));
      StockTotalOver(es, d');
    }
  }

  /**
   * The pivot neither loses nor double counts stock: its `Stock` column adds up
   * to the quantities of all entries that have an ASIN.
   */
  lemma PivotConservesStock(es: seq<Entry>)
    ensures StockTotal(Pivot(es)) == Total(Quantities(Keyed(es)))
  {
    var kept := Keyed(es);
    var d := Distinct(Keys(kept));
    assert Pivot(es) == seq(|d|, i requires 0 <= i < |d| => PivotRow(d[i].0, d[i].1, StockOf(es, d[i])));
    StockTotalOver(es, d);
    GroupSumsConserveTotal(Keys(kept), Quantities(kept));
  }

  /**
   * The whole inventory step: the sellable rows, tagged with their SKU brands,
   * pivoted by (ASIN, brand). No two pivot rows share an (ASIN, brand) pair,
   * and each holds the stock of its group added up over the inventory rows.
   */
  function InventoryPivot(rows: seq<seq<Cell>>, cond: nat, asin: nat, qty: nat, sku: Option<nat>): (r: seq<PivotRow>)
    requires HasColumn(rows, asin) && HasColumn(rows, qty)
    ensures forall i, j | 0 <= i < j < |r| :: (r[i].asin, r[i].brand) != (r[j].asin, r[j].brand)
    ensures forall i | 0 <= i < |r| :: r[i].stock == GroupStock(rows, cond, asin, qty, sku, (r[i].asin, r[i].brand))
  {
    var es := Tagged(Sellable(rows, cond), asin, qty, sku);
    var r := Pivot(es);
    forall i | 0 <= i < |r|
      ensures r[i].stock == GroupStock(rows, cond, asin, qty, sku, (r[i].asin, r[i].brand))
    {
      StockOfRows(rows, cond, asin, qty, sku, (r[i].asin, r[i].brand));
    }
    r
  }

  /** An entry tagged from a sellable row carries that row's ASIN and a classifier label. */
  lemma TaggedFromSellable(rows: seq<seq<Cell>>, cond: nat, asin: nat, qty: nat, sku: Option<nat>, e: Entry)
    requires HasColumn(rows, asin) && HasColumn(rows, qty)
    requires e in Tagged(Sellable(rows, cond), asin, qty, sku)
    ensures e.brand in Labels() || e.brand == Unmapped
    ensures exists row | row in rows :: SellableRow(row, cond) && row[asin] == e.asin
  {
    var sell := Sellable(rows, cond);
    var es := Tagged(sell, asin, qty, sku);
    var k :| 0 <= k < |es| && es[k] == e;
    assert sell[k] in rows;
    ClassifyIsLabel(ScanText(None, SkuCell(sell[k], sku), None));
  }

  /**
   * Stock comes only from sellable rows: every pivot row has the ASIN of a
   * sellable inventory row, and a brand that the classifier gives.
   */
  lemma PivotFromSellable(rows: seq<seq<Cell>>, cond: nat, asin: nat, qty: nat, sku: Option<nat>, i: nat)
    requires HasColumn(rows, asin) && HasColumn(rows, qty)
    requires i < |InventoryPivot(rows, cond, asin, qty, sku)|
    ensures var p := InventoryPivot(rows, cond, asin, qty, sku)[i];
      !p.asin.Missing? && (p.brand in Labels() || p.brand == Unmapped) &&
      exists row | row in rows :: SellableRow(row, cond) && row[asin] == p.asin
  {
    var es := Tagged(Sellable(rows, cond), asin, qty, sku);
    PivotRowFromEntry(es, i);
    var p := Pivot(es)[i];
    var e :| e in es && e.asin == p.asin && e.brand == p.brand;
    TaggedFromSellable(rows, cond, asin, qty, sku, e);
  }

  /** Every pivot row has an ASIN and a brand label or "Unmapped". */
  lemma PivotTagged(rows: seq<seq<Cell>>, cond: nat, asin: nat, qty: nat, sku: Option<nat>)
    requires HasColumn(rows, asin) && HasColumn(rows, qty)
    ensures forall p | p in InventoryPivot(rows, cond, asin, qty, sku) :: !p.asin.Missing? && IsBrand(p.brand)
  {
    var pivot := InventoryPivot(rows, cond, asin, qty, sku);
    forall p | p in pivot ensures !p.asin.Missing? && IsBrand(p.brand) {
      var i :| 0 <= i < |pivot| && pivot[i] == p;
      PivotFromSellable(rows, cond, asin, qty, sku, i);
    }
  }

  /** An ASIN none of whose inventory rows is sellable has no pivot row. */
  lemma NoPivotWithoutSellable(rows: seq<seq<Cell>>, cond: nat, asin: nat, qty: nat, sku: Option<nat>, a: Cell)
    requires HasColumn(rows, asin) && HasColumn(rows, qty)
    requires forall i | 0 <= i < |rows| && rows[i][asin] == a :: !SellableRow(rows[i], cond)
    ensures forall p | p in InventoryPivot(rows, cond, asin, qty, sku) :: p.asin != a
  {
    forall p | p in InventoryPivot(rows, cond, asin, qty, sku) ensures p.asin != a {
      PivotRowNotFor(rows, cond, asin, qty, sku, a, p);
    }
  }

  /** One pivot row of `NoPivotWithoutSellable`: it has the ASIN of a sellable row, so not `a`. */
  lemma PivotRowNotFor(rows: seq<seq<Cell>>, cond: nat, asin: nat, qty: nat, sku: Option<nat>, a: Cell, p: PivotRow)
    requires HasColumn(rows, asin) && HasColumn(rows, qty)
    requires forall j | 0 <= j < |rows| && rows[j][asin] == a :: !SellableRow(rows[j], cond)
    requires p in InventoryPivot(rows, cond, asin, qty, sku)
    ensures p.asin != a
  {
    var r := InventoryPivot(rows, cond, asin, qty, sku);
    var i :| 0 <= i < |r| && r[i] == p;
    PivotFromSellable(rows, cond, asin, qty, sku, i);
    var row :| row in rows && SellableRow(row, cond) && row[asin] == p.asin;
    var j :| 0 <= j < |rows| && rows[j] == row;
  }

  /** Every sellable row with an ASIN is represented by a pivot row for its ASIN and SKU brand. */
  lemma SellableRowPivoted(rows: seq<seq<Cell>>, cond: nat, asin: nat, qty: nat, sku: Option<nat>, row: seq<Cell>)
    requires HasColumn(rows, asin) && HasColumn(rows, qty)
    requires row in rows && SellableRow(row, cond) && !row[asin].Missing?
    ensures exists p | p in InventoryPivot(rows, cond, asin, qty, sku) ::
      p.asin == row[asin] && p.brand == SkuBrand(row, sku)
  {
    var sell := Sellable(rows, cond);
    var es := Tagged(sell, asin, qty, sku);
    var k :| 0 <= k < |sell| && sell[k] == row;
    assert es[k] in es;
    PivotCoversEntry(es, es[k]);
    var i :| 0 <= i < |Pivot(es)| && Pivot(es)[i].asin == row[asin] && Pivot(es)[i].brand == SkuBrand(row, sku);
    assert Pivot(es)[i] in Pivot(es);
  }

  /**
   * The stock of one (ASIN, brand) group, added up straight over the inventory
   * rows: every sellable row whose ASIN is not NaN and whose ASIN and SKU brand
   * are `key` adds its quantity, a NaN quantity adding nothing.
   */
  function GroupStock(rows: seq<seq<Cell>>, cond: nat, asin: nat, qty: nat, sku: Option<nat>, key: (Cell, string)): real
    requires HasColumn(rows, asin) && HasColumn(rows, qty)
  {
    if rows == [] then 0.0
    else
      var row := rows[|rows| - 1];
      GroupStock(rows[..|rows| - 1], cond, asin, qty, sku, key) +
        (if SellableRow(row, cond) && !row[asin].Missing? && (row[asin], SkuBrand(row, sku)) == key then Value(row[qty]) else 0.0)
  }

  /** The quantities of all sellable rows whose ASIN is not NaN, added up. */
  function SellableStock(rows: seq<seq<Cell>>, cond: nat, asin: nat, qty: nat): real
    requires HasColumn(rows, asin) && HasColumn(rows, qty)
  {
    if rows == [] then 0.0
    else
      var row := rows[|rows| - 1];
      SellableStock(rows[..|rows| - 1], cond, asin, qty) +
        (if SellableRow(row, cond) && !row[asin].Missing? then Value(row[qty]) else 0.0)
  }

  /** The entries the pivot sums: the tagged sellable rows whose ASIN is not NaN. */
  function Kept(rows: seq<seq<Cell>>, cond: nat, asin: nat, qty: nat, sku: Option<nat>): seq<Entry>
    requires HasColumn(rows, asin) && HasColumn(rows, qty)
  {
    Keyed(Tagged(Sellable(rows, cond), asin, qty, sku))
  }

  /** One more inventory row joins the sellable ones when it is sellable. */
  lemma SellableSnoc(front: seq<seq<Cell>>, row: seq<Cell>, cond: nat)
    ensures Sellable(front + [row], cond) == Sellable(front, cond) + (if SellableRow(row, cond) then [row] else [])
  {
    FilterSnoc(front, row, (r: seq<Cell>) => SellableRow(r, cond));
  }

  /** One more row adds its entry at the end. */
  lemma TaggedSnoc(rows: seq<seq<Cell>>, row: seq<Cell>, asin: nat, qty: nat, sku: Option<nat>)
    requires HasColumn(rows, asin) && HasColumn(rows, qty) && asin < |row| && qty < |row|
    ensures HasColumn(rows + [row], asin) && HasColumn(rows + [row], qty)
    ensures Tagged(rows + [row], asin, qty, sku) == Tagged(rows, asin, qty, sku) + [Entry(row[asin], SkuBrand(row, sku), row[qty])]
  {
    assert Tagged(rows + [row], asin, qty, sku) == Tagged(rows, asin, qty, sku) + [Entry(row[asin], SkuBrand(row, sku), row[qty])];
  }

  /** One more entry is kept when its ASIN is not NaN. */
  lemma KeyedSnoc(es: seq<Entry>, e: Entry)
    ensures Keyed(es + [e]) == Keyed(es) + (if e.asin.Missing? then [] else [e])
  {
    FilterSnoc(es, e, (x: Entry) => !x.asin.Missing?);
  }

  /** A sellable inventory row with an ASIN adds its entry to the kept ones. */
  lemma KeptAdds(front: seq<seq<Cell>>, row: seq<Cell>, cond: nat, asin: nat, qty: nat, sku: Option<nat>)
    requires HasColumn(front, asin) && HasColumn(front, qty) && asin < |row| && qty < |row|
    requires HasColumn(front + [row], asin) && HasColumn(front + [row], qty)
    requires SellableRow(row, cond) && !row[asin].Missing?
    ensures Kept(front + [row], cond, asin, qty, sku) == Kept(front, cond, asin, qty, sku) + [Entry(row[asin], SkuBrand(row, sku), row[qty])]
  {
    SellableSnoc(front, row, cond);
    var sell := Sellable(front, cond);
    TaggedSnoc(sell, row, asin, qty, sku);
    KeyedSnoc(Tagged(sell, asin, qty, sku), Entry(row[asin], SkuBrand(row, sku), row[qty]));
  }

  /** Any other inventory row leaves the kept entries as they were. */
  lemma KeptSkips(front: seq<seq<Cell>>, row: seq<Cell>, cond: nat, asin: nat, qty: nat, sku: Option<nat>)
    requires HasColumn(front, asin) && HasColumn(front, qty) && asin < |row| && qty < |row|
    requires HasColumn(front + [row], asin) && HasColumn(front + [row], qty)
    requires !(SellableRow(row, cond) && !row[asin].Missing?)
    ensures Kept(front + [row], cond, asin, qty, sku) == Kept(front, cond, asin, qty, sku)
  {
    SellableSnoc(front, row, cond);
    if SellableRow(row, cond) {
      var sell := Sellable(front, cond);
      TaggedSnoc(sell, row, asin, qty, sku);
      KeyedSnoc(Tagged(sell, asin, qty, sku), Entry(row[asin], SkuBrand(row, sku), row[qty]));
    }
  }

  /** One more entry adds its quantity to its own group's sum and to the total. */
  lemma EntrySnoc(es: seq<Entry>, e: Entry, key: (Cell, string))
    ensures SumOf(Keys(es + [e]), Quantities(es + [e]), key) ==
      SumOf(Keys(es), Quantities(es), key) + (if (e.asin, e.brand) == key then Value(e.qty) else 0.0)
    ensures Total(Quantities(es + [e])) == Total(Quantities(es)) + Value(e.qty)
  {
    assert Keys(es + [e]) == Keys(es) + [(e.asin, e.brand)];
    assert Quantities(es + [e]) == Quantities(es) + [Value(e.qty)];
    SumOfSnoc(Keys(es), Quantities(es), (e.asin, e.brand), Value(e.qty), key);
    TotalSnoc(Quantities(es), Value(e.qty));
  }

  /** The sum of the kept entries of one group is the group's stock over the inventory rows. */
  lemma {:induction false} KeptGroupStock(rows: seq<seq<Cell>>, cond: nat, asin: nat, qty: nat, sku: Option<nat>, key: (Cell, string))
    requires HasColumn(rows, asin) && HasColumn(rows, qty)
    ensures var kept := Kept(rows, cond, asin, qty, sku);
      SumOf(Keys(kept), Quantities(kept), key) == GroupStock(rows, cond, asin, qty, sku, key)
  {
    if rows != [] {
      var front, row := rows[..|rows| - 1], rows[|rows| - 1];
      assert rows == front + [row];
      FrontColumns(rows, asin, qty);
      KeptGroupStock(front, cond, asin, qty, sku, key);
      KeptGroupStockStep(front, row, cond, asin, qty, sku, key);
    }
  }

  /** One more inventory row adds its quantity to its own group's stock. */
  lemma GroupStockSnoc(front: seq<seq<Cell>>, row: seq<Cell>, cond: nat, asin: nat, qty: nat, sku: Option<nat>, key: (Cell, string))
    requires HasColumn(front, asin) && HasColumn(front, qty) && asin < |row| && qty < |row|
    requires HasColumn(front + [row], asin) && HasColumn(front + [row], qty)
    ensures GroupStock(front + [row], cond, asin, qty, sku, key) == GroupStock(front, cond, asin, qty, sku, key) +
      (if SellableRow(row, cond) && !row[asin].Missing? && (row[asin], SkuBrand(row, sku)) == key then Value(row[qty]) else 0.0)
  {
    assert (front + [row])[..|front|] == front;
  }

  /** The inductive step of `KeptGroupStock`: one more inventory row. */
  lemma KeptGroupStockStep(front: seq<seq<Cell>>, row: seq<Cell>, cond: nat, asin: nat, qty: nat, sku: Option<nat>, key: (Cell, string))
    requires HasColumn(front, asin) && HasColumn(front, qty) && asin < |row| && qty < |row|
    requires HasColumn(front + [row], asin) && HasColumn(front + [row], qty)
    requires var kept := Kept(front, cond, asin, qty, sku);
      SumOf(Keys(kept), Quantities(kept), key) == GroupStock(front, cond, asin, qty, sku, key)
    ensures var kept := Kept(front + [row], cond, asin, qty, sku);
      SumOf(Keys(kept), Quantities(kept), key) == GroupStock(front + [row], cond, asin, qty, sku, key)
  {
    GroupStockSnoc(front, row, cond, asin, qty, sku, key);
    if SellableRow(row, cond) && !row[asin].Missing? {
      KeptAdds(front, row, cond, asin, qty, sku);
      SumStep(Kept(front, cond, asin, qty, sku), Kept(front + [row], cond, asin, qty, sku), Entry(row[asin], SkuBrand(row, sku), row[qty]), key,
        GroupStock(front, cond, asin, qty, sku, key), GroupStock(front + [row], cond, asin, qty, sku, key));
    } else {
      KeptSkips(front, row, cond, asin, qty, sku);
    }
  }

  /** A group sum over the entries grows with one more entry exactly as the group's stock does. */
  lemma SumStep(kept: seq<Entry>, kept': seq<Entry>, e: Entry, key: (Cell, string), g: real, g': real)
    requires kept' == kept + [e] && SumOf(Keys(kept), Quantities(kept), key) == g
    requires g' == g + (if (e.asin, e.brand) == key then Value(e.qty) else 0.0)
    ensures SumOf(Keys(kept'), Quantities(kept'), key) == g'
  {
    EntrySnoc(kept, e, key);
  }

  /** The pivot's sum for one group is the group's stock over the inventory rows. */
  lemma StockOfRows(rows: seq<seq<Cell>>, cond: nat, asin: nat, qty: nat, sku: Option<nat>, key: (Cell, string))
    requires HasColumn(rows, asin) && HasColumn(rows, qty)
    ensures StockOf(Tagged(Sellable(rows, cond), asin, qty, sku), key) == GroupStock(rows, cond, asin, qty, sku, key)
  {
    KeptGroupStock(rows, cond, asin, qty, sku, key);
  }

  /** The quantities the pivot adds up are those of the sellable rows with an ASIN. */
  lemma {:induction false} KeptStock(rows: seq<seq<Cell>>, cond: nat, asin: nat, qty: nat, sku: Option<nat>)
    requires HasColumn(rows, asin) && HasColumn(rows, qty)
    ensures Total(Quantities(Kept(rows, cond, asin, qty, sku))) == SellableStock(rows, cond, asin, qty)
  {
    if rows != [] {
      var front, row := rows[..|rows| - 1], rows[|rows| - 1];
      assert rows == front + [row];
      FrontColumns(rows, asin, qty);
      KeptStock(front, cond, asin, qty, sku);
      KeptStockStep(front, row, cond, asin, qty, sku);
    }
  }

  /** The inductive step of `KeptStock`: one more inventory row. */
  lemma KeptStockStep(front: seq<seq<Cell>>, row: seq<Cell>, cond: nat, asin: nat, qty: nat, sku: Option<nat>)
    requires HasColumn(front, asin) && HasColumn(front, qty) && asin < |row| && qty < |row|
    requires HasColumn(front + [row], asin) && HasColumn(front + [row], qty)
    requires Total(Quantities(Kept(front, cond, asin, qty, sku))) == SellableStock(front, cond, asin, qty)
    ensures Total(Quantities(Kept(front + [row], cond, asin, qty, sku))) == SellableStock(front + [row], cond, asin, qty)
  {
    SellableStockSnoc(front, row, cond, asin, qty);
    if SellableRow(row, cond) && !row[asin].Missing? {
      KeptAdds(front, row, cond, asin, qty, sku);
      TotalStep(Kept(front, cond, asin, qty, sku), Kept(front + [row], cond, asin, qty, sku), Entry(row[asin], SkuBrand(row, sku), row[qty]),
        SellableStock(front, cond, asin, qty), SellableStock(front + [row], cond, asin, qty));
    } else {
      KeptSkips(front, row, cond, asin, qty, sku);
    }
  }

  /** One more inventory row adds its quantity to the sellable stock when it is sellable and has an ASIN. */
  lemma SellableStockSnoc(front: seq<seq<Cell>>, row: seq<Cell>, cond: nat, asin: nat, qty: nat)
    requires HasColumn(front, asin) && HasColumn(front, qty) && asin < |row| && qty < |row|
    requires HasColumn(front + [row], asin) && HasColumn(front + [row], qty)
    ensures SellableStock(front + [row], cond, asin, qty) == SellableStock(front, cond, asin, qty) +
      (if SellableRow(row, cond) && !row[asin].Missing? then Value(row[qty]) else 0.0)
  {
    assert (front + [row])[..|front|] == front;
  }

  /** A total over the entries grows with one more entry exactly as the sellable stock does. */
  lemma TotalStep(kept: seq<Entry>, kept': seq<Entry>, e: Entry, t: real, t': real)
    requires kept' == kept + [e] && Total(Quantities(kept)) == t && t' == t + Value(e.qty)
    ensures Total(Quantities(kept')) == t'
  {
    EntrySnoc(kept, e, (e.asin, e.brand));
  }

  /**
   * The inventory step neither loses nor double counts stock: the pivot's
   * `Stock` column adds up to the quantities of all sellable inventory rows
   * that have an ASIN.
   */
  lemma InventoryConservesStock(rows: seq<seq<Cell>>, cond: nat, asin: nat, qty: nat, sku: Option<nat>)
    requires HasColumn(rows, asin) && HasColumn(rows, qty)
    ensures StockTotal(InventoryPivot(rows, cond, asin, qty, sku)) == SellableStock(rows, cond, asin, qty)
  {
    PivotConservesStock(Tagged(Sellable(rows, cond), asin, qty, sku));
    KeptStock(rows, cond, asin, qty, sku);
  }

  /** The pivot row of a sellable row holds the stock of that row's (ASIN, SKU brand) group. */
  lemma SellableRowStock(rows: seq<seq<Cell>>, cond: nat, asin: nat, qty: nat, sku: Option<nat>, k: nat)
    requires HasColumn(rows, asin) && HasColumn(rows, qty)
    requires k < |rows| && SellableRow(rows[k], cond) && !rows[k][asin].Missing?
    ensures var pivot := InventoryPivot(rows, cond, asin, qty, sku);
      exists i | 0 <= i < |pivot| ::
        && pivot[i].asin == rows[k][asin] && pivot[i].brand == SkuBrand(rows[k], sku)
        && pivot[i].stock == GroupStock(rows, cond, asin, qty, sku, (rows[k][asin], SkuBrand(rows[k], sku)))
  {
    var es := Tagged(Sellable(rows, cond), asin, qty, sku);
    var pivot := Pivot(es);
    SellableRowPivoted(rows, cond, asin, qty, sku, rows[k]);
    var i :| 0 <= i < |pivot| && pivot[i].asin == rows[k][asin] && pivot[i].brand == SkuBrand(rows[k], sku);
    assert pivot[i].stock == StockOf(es, (pivot[i].asin, pivot[i].brand));
    StockOfRows(rows, cond, asin, qty, sku, (rows[k][asin], SkuBrand(rows[k], sku)));
  }
}

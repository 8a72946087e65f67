/**
 * The advertising half of the reconciliation (app.py line 90): one aggregate
 * row per advertised ASIN.
 */
module Ads {
  import opened Cells
  import opened Tables
  import opened Grouping

  /** One row of `ad_agg`: the ASIN, its summed sales and spend, and its first campaign. */
  datatype AdRow = AdRow(asin: Cell, sales: real, spend: real, campaign: Cell)

  /** The row has a cell in column `col` and it is not NaN. */
  predicate HasAsin(row: seq<Cell>, col: nat) {
    col < |row| && !row[col].Missing?
  }

  /** The rows a grouping by the advertised ASIN keeps: those whose ASIN is not NaN. */
  function Keyed(rows: seq<seq<Cell>>, col: nat): (r: seq<seq<Cell>>)
    ensures forall i | 0 <= i < |r| :: r[i] in rows && HasAsin(r[i], col)
    ensures forall row | row in rows && HasAsin(row, col) :: row in r
    ensures forall row | row in rows :: multiset(r)[row] == if HasAsin(row, col) then multiset(rows)[row] else 0
  {
    Filter(rows, (row: seq<Cell>) => HasAsin(row, col))
  }

  /**
   * The `col` values of the report rows whose ASIN is `a`, added up straight
   * over the report (rows with a NaN ASIN left out, NaN values adding nothing).
   */
  function AsinSum(rows: seq<seq<Cell>>, asin: nat, col: nat, a: Cell): real
    requires HasColumn(rows, asin) && HasColumn(rows, col)
  {
    if rows == [] then 0.0
    else
      var row := rows[|rows| - 1];
      AsinSum(rows[..|rows| - 1], asin, col, a) + (if HasAsin(row, asin) && row[asin] == a then Value(row[col]) else 0.0)
  }

  /** The `col` values of all report rows that have an ASIN, added up. */
  function ReportSum(rows: seq<seq<Cell>>, asin: nat, col: nat): real
    requires HasColumn(rows, asin) && HasColumn(rows, col)
  {
    if rows == [] then 0.0
    else
      var row := rows[|rows| - 1];
      ReportSum(rows[..|rows| - 1], asin, col) + (if HasAsin(row, asin) then Value(row[col]) else 0.0)
  }

  /** One more report row joins the kept ones when it has an ASIN. */
  lemma KeyedSnoc(front: seq<seq<Cell>>, row: seq<Cell>, asin: nat)
    ensures Keyed(front + [row], asin) == Keyed(front, asin) + (if HasAsin(row, asin) then [row] else [])
  {
    FilterSnoc(front, row, (r: seq<Cell>) => HasAsin(r, asin));
  }

  /** One more kept row adds its value to its own ASIN's sum and to the total. */
  lemma KeptSnoc(kept: seq<seq<Cell>>, row: seq<Cell>, asin: nat, col: nat, a: Cell)
    requires HasColumn(kept, asin) && HasColumn(kept, col) && asin < |row| && col < |row|
    ensures HasColumn(kept + [row], asin) && HasColumn(kept + [row], col)
    ensures SumOf(Column(kept + [row], asin), Values(Column(kept + [row], col)), a) ==
      SumOf(Column(kept, asin), Values(Column(kept, col)), a) + (if row[asin] == a then Value(row[col]) else 0.0)
    ensures Total(Values(Column(kept + [row], col))) == Total(Values(Column(kept, col))) + Value(row[col])
  {
    assert Column(kept + [row], asin) == Column(kept, asin) + [row[asin]];
    assert Values(Column(kept + [row], col)) == Values(Column(kept, col)) + [Value(row[col])];
    SumOfSnoc(Column(kept, asin), Values(Column(kept, col)), row[asin], Value(row[col]), a);
    TotalSnoc(Values(Column(kept, col)), Value(row[col]));
  }

  /** The aggregate's sum for ASIN `a` is the sum straight over the report rows. */
  lemma {:induction false} KeyedAsinSum(rows: seq<seq<Cell>>, asin: nat, col: nat, a: Cell)
    requires HasColumn(rows, asin) && HasColumn(rows, col)
    ensures var kept := Keyed(rows, asin);
      SumOf(Column(kept, asin), Values(Column(kept, col)), a) == AsinSum(rows, asin, col, a)
  {
    if rows != [] {
      var front, row := rows[..|rows| - 1], rows[|rows| - 1];
      assert rows == front + [row];
      FrontColumns(rows, asin, col);
      KeyedAsinSum(front, asin, col, a);
      KeyedSnoc(front, row, asin);
      if HasAsin(row, asin) {
        KeptSnoc(Keyed(front, asin), row, asin, col, a);
      }
    }
  }

  /** The aggregate's total is the sum straight over the report rows that have an ASIN. */
  lemma {:induction false} KeyedReportSum(rows: seq<seq<Cell>>, asin: nat, col: nat)
    requires HasColumn(rows, asin) && HasColumn(rows, col)
    ensures Total(Values(Column(Keyed(rows, asin), col))) == ReportSum(rows, asin, col)
  {
    if rows != [] {
      var front, row := rows[..|rows| - 1], rows[|rows| - 1];
      assert rows == front + [row];
      FrontColumns(rows, asin, col);
      KeyedReportSum(front, asin, col);
      KeyedSnoc(front, row, asin);
      if HasAsin(row, asin) {
        KeptSnoc(Keyed(front, asin), row, asin, col, Missing);
      }
    }
  }

  /** What each cell adds to a sum. */
  function Values(cs: seq<Cell>): (vs: seq<real>)
    ensures |vs| == |cs| && forall i | 0 <= i < |cs| :: vs[i] == Value(cs[i])
  {
    seq(|cs|, i requires 0 <= i < |cs| => Value(cs[i]))
  }

  /** pandas' `first` for key `k`: its first campaign that is not NaN, or NaN when it has none. */
  function FirstPresent(ks: seq<Cell>, cs: seq<Cell>, k: Cell): (r: Cell)
    requires |ks| == |cs|
    ensures r.Missing? <==> forall i | 0 <= i < |ks| && ks[i] == k :: cs[i].Missing?
    ensures !r.Missing? ==> exists i | 0 <= i < |ks| ::
      ks[i] == k && cs[i] == r && forall j | 0 <= j < i && ks[j] == k :: cs[j].Missing?
  {
    if ks == [] then Missing
    else if ks[0] == k && !cs[0].Missing? then cs[0]
    else
      var r := FirstPresent(ks[1..], cs[1..], k);
      assert forall i | 1 <= i < |ks| :: ks[i] == ks[1..][i - 1] && cs[i] == cs[1..][i - 1];
      r
  }

  /** The group keys of the ad report: its distinct ASINs other than NaN. */
  function AdKeys(rows: seq<seq<Cell>>, asin: nat): seq<Cell>
    requires HasColumn(rows, asin)
  {
    Distinct(Column(Keyed(rows, asin), asin))
  }

  /**
   * The ad report grouped by advertised ASIN: one row per distinct ASIN, in
   * order of first appearance, holding the summed sales and spend of its rows
   * and the campaign name of its first row.
   */
  function AdAggregate(rows: seq<seq<Cell>>, asin: nat, sales: nat, spend: nat, camp: nat): (r: seq<AdRow>)
    requires HasColumn(rows, asin) && HasColumn(rows, sales) && HasColumn(rows, spend) && HasColumn(rows, camp)
    ensures |r| == |AdKeys(rows, asin)| && forall i | 0 <= i < |r| :: r[i].asin == AdKeys(rows, asin)[i]
  {
    var kept := Keyed(rows, asin);
    var ks := Column(kept, asin);
    var d := Distinct(ks);
    seq(|d|, i requires 0 <= i < |d| =>
      AdRow(d[i], SumOf(ks, Values(Column(kept, sales)), d[i]), SumOf(ks, Values(Column(kept, spend)), d[i]),
            FirstPresent(ks, Column(kept, camp), d[i])))
  }

  /** No two aggregate rows share an ASIN. */
  lemma AdAsinsDistinct(rows: seq<seq<Cell>>, asin: nat, sales: nat, spend: nat, camp: nat, i: nat, j: nat)
    requires HasColumn(rows, asin) && HasColumn(rows, sales) && HasColumn(rows, spend) && HasColumn(rows, camp)
    requires i < j < |AdAggregate(rows, asin, sales, spend, camp)|
    ensures AdAggregate(rows, asin, sales, spend, camp)[i].asin != AdAggregate(rows, asin, sales, spend, camp)[j].asin
  {
  }

  /** Every aggregate row has the ASIN, not NaN, of some report row. */
  lemma AdRowFromReport(rows: seq<seq<Cell>>, asin: nat, sales: nat, spend: nat, camp: nat, i: nat)
    requires HasColumn(rows, asin) && HasColumn(rows, sales) && HasColumn(rows, spend) && HasColumn(rows, camp)
    requires i < |AdAggregate(rows, asin, sales, spend, camp)|
    ensures var a := AdAggregate(rows, asin, sales, spend, camp)[i];
      !a.asin.Missing? && exists row | row in rows :: row[asin] == a.asin
  {
    var kept := Keyed(rows, asin);
    var ks := Column(kept, asin);
    assert AdKeys(rows, asin)[i] in ks;
    var k :| 0 <= k < |ks| && ks[k] == AdKeys(rows, asin)[i];
    assert kept[k] in rows;
  }

  /** Every report row with an ASIN has its aggregate row. */
  lemma AdReportRowCovered(rows: seq<seq<Cell>>, asin: nat, sales: nat, spend: nat, camp: nat, row: seq<Cell>)
    requires HasColumn(rows, asin) && HasColumn(rows, sales) && HasColumn(rows, spend) && HasColumn(rows, camp)
    requires row in rows && !row[asin].Missing?
    ensures exists i | 0 <= i < |AdAggregate(rows, asin, sales, spend, camp)| ::
      AdAggregate(rows, asin, sales, spend, camp)[i].asin == row[asin]
  {
    var kept := Keyed(rows, asin);
    var ks := Column(kept, asin);
    assert row in kept;
    var k :| 0 <= k < |kept| && kept[k] == row;
    assert ks[k] in ks;
    var d := AdKeys(rows, asin);
    var i :| 0 <= i < |d| && d[i] == ks[k];
    assert AdAggregate(rows, asin, sales, spend, camp)[i].asin == row[asin];
  }

  /**
   * Each aggregate row sums the sales and the spend of exactly the report rows
   * with its ASIN, and takes its campaign from the first of them that has one.
   */
  lemma AdAggregateRow(rows: seq<seq<Cell>>, asin: nat, sales: nat, spend: nat, camp: nat, i: nat)
    requires HasColumn(rows, asin) && HasColumn(rows, sales) && HasColumn(rows, spend) && HasColumn(rows, camp)
    requires i < |AdAggregate(rows, asin, sales, spend, camp)|
    ensures var kept, a := Keyed(rows, asin), AdAggregate(rows, asin, sales, spend, camp)[i];
      && a.sales == SumOf(Column(kept, asin), Values(Column(kept, sales)), a.asin)
      && a.spend == SumOf(Column(kept, asin), Values(Column(kept, spend)), a.asin)
      && a.campaign == FirstPresent(Column(kept, asin), Column(kept, camp), a.asin)
    ensures var a := AdAggregate(rows, asin, sales, spend, camp)[i];
      a.sales == AsinSum(rows, asin, sales, a.asin) && a.spend == AsinSum(rows, asin, spend, a.asin)
  {
    var a := AdAggregate(rows, asin, sales, spend, camp)[i];
    KeyedAsinSum(rows, asin, sales, a.asin);
    KeyedAsinSum(rows, asin, spend, a.asin);
  }

  /** The total of the aggregate's sales column. */
  function SalesTotal(r: seq<AdRow>): real {
    if r == [] then 0.0 else SalesTotal(r[..|r| - 1]) + r[|r| - 1].sales
  }

  /** The total of the aggregate's spend column. */
  function SpendTotal(r: seq<AdRow>): real {
    if r == [] then 0.0 else SpendTotal(r[..|r| - 1]) + r[|r| - 1].spend
  }

  lemma {:induction false} TotalsOver(d: seq<Cell>, ks: seq<Cell>, sv: seq<real>, pv: seq<real>, cs: seq<Cell>)
    requires |ks| == |sv| == |pv| == |cs|
    ensures var r := seq(|d|, i requires 0 <= i < |d| => AdRow(d[i], SumOf(ks, sv, d[i]), SumOf(ks, pv, d[i]), FirstPresent(ks, cs, d[i])));
      SalesTotal(r) == TotalOver(d, ks, sv) && SpendTotal(r) == TotalOver(d, ks, pv)
  {
    if d != [] {
      var r := seq(|d|, i requires 0 <= i < |d| => AdRow(d[i], SumOf(ks, sv, d[i]), SumOf(ks, pv, d[i]), FirstPresent(ks, cs, d[i])));
      var d' := d[..|d| - 1];
      assert r[..|r| - 1] == seq(|d'|, i requires 0 <= i < |d'| => AdRow(d'[i], SumOf(ks, sv, d'[i]), SumOf(ks, pv, d'[i]), FirstPresent(ks, cs, d'[i])));
      TotalsOver(d', ks, sv, pv, cs);
    }
  }

  /**
   * Aggregating loses and double counts nothing: the aggregate's sales and
   * spend add up to those of all report rows that have an ASIN.
   */
  lemma AdAggregateConservesTotals(rows: seq<seq<Cell>>, asin: nat, sales: nat, spend: nat, camp: nat)
    requires HasColumn(rows, asin) && HasColumn(rows, sales) && HasColumn(rows, spend) && HasColumn(rows, camp)
    ensures var kept, r := Keyed(rows, asin), AdAggregate(rows, asin, sales, spend, camp);
      && SalesTotal(r) == Total(Values(Column(kept, sales)))
      && SpendTotal(r) == Total(Values(Column(kept, spend)))
    ensures var r := AdAggregate(rows, asin, sales, spend, camp);
      SalesTotal(r) == ReportSum(rows, asin, sales) && SpendTotal(r) == ReportSum(rows, asin, spend)
  {
    KeyedReportSum(rows, asin, sales);
    KeyedReportSum(rows, asin, spend);
    var kept := Keyed(rows, asin);
    var ks := Column(kept, asin);
    var sv, pv, cs := Values(Column(kept, sales)), Values(Column(kept, spend)), Column(kept, camp);
    TotalsOver(Distinct(ks), ks, sv, pv, cs);
    GroupSumsConserveTotal(ks, sv);
    GroupSumsConserveTotal(ks, pv);
  }
}

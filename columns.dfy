/**
 * `find_col` (app.py): finds the column of a report from keywords, tolerant of
 * the naming variations between report exports.
 */
module Columns {
  import opened Wrappers
  import opened Text

  /**
   * A header as `find_col` compares it, stripped and lower-cased: no longer
   * than the header, with no upper-case letter and no whitespace at either end.
   */
  function Folded(col: string): (r: string)
    ensures |r| <= |col|
    ensures forall i | 0 <= i < |r| :: !('A' <= r[i] <= 'Z')
    ensures |r| == 0 || (!IsSpace(r[0]) && !IsSpace(r[|r| - 1]))
  {
    Lower(Strip(col))
  }

  /** Some term, lower-cased, occurs in the folded header. */
  predicate Mentions(col: string, terms: seq<string>) {
    exists k | 0 <= k < |terms| :: Contains(Folded(col), Lower(terms[k]))
  }

  /** The header mentions a keyword and no exclude term. */
  predicate Accepts(col: string, keywords: seq<string>, exclude: seq<string>) {
    Mentions(col, keywords) && !Mentions(col, exclude)
  }

  /** The column `find_col` picks: the first accepted one in column order, if any. */
  function FirstMatch(columns: seq<string>, keywords: seq<string>, exclude: seq<string>): (r: Option<string>)
    ensures r.Some? ==> r.value in columns && Accepts(r.value, keywords, exclude)
  {
    if columns == [] then None
    else if Accepts(columns[0], keywords, exclude) then Some(columns[0])
    else FirstMatch(columns[1..], keywords, exclude)
  }

  /** The picked column is accepted and every column before it is not. */
  lemma {:induction false} FirstMatchIsFirst(columns: seq<string>, keywords: seq<string>, exclude: seq<string>)
    requires FirstMatch(columns, keywords, exclude).Some?
    ensures exists i | 0 <= i < |columns| ::
      && columns[i] == FirstMatch(columns, keywords, exclude).value
      && Accepts(columns[i], keywords, exclude)
      && forall j | 0 <= j < i :: !Accepts(columns[j], keywords, exclude)
  {
    if !Accepts(columns[0], keywords, exclude) {
      var rest := columns[1..];
      assert FirstMatch(columns, keywords, exclude) == FirstMatch(rest, keywords, exclude);
      FirstMatchIsFirst(rest, keywords, exclude);
      var i :| 0 <= i < |rest| && rest[i] == FirstMatch(rest, keywords, exclude).value
        && Accepts(rest[i], keywords, exclude)
        && forall j | 0 <= j < i :: !Accepts(rest[j], keywords, exclude);
      forall j | 0 <= j < i + 1 ensures !Accepts(columns[j], keywords, exclude) {
        if j > 0 {
          assert columns[j] == rest[j - 1];
        }
      }
      assert columns[i + 1] == rest[i];
    } else {
      assert columns[0] == FirstMatch(columns, keywords, exclude).value;
    }
  }

  /** `find_col` returns `None` exactly when no column is accepted. */
  lemma {:induction false} FirstMatchNone(columns: seq<string>, keywords: seq<string>, exclude: seq<string>)
    ensures FirstMatch(columns, keywords, exclude).None? <==>
      forall j | 0 <= j < |columns| :: !Accepts(columns[j], keywords, exclude)
  {
    if columns != [] && !Accepts(columns[0], keywords, exclude) {
      FirstMatchNone(columns[1..], keywords, exclude);
      assert forall j | 1 <= j < |columns| :: columns[j] == columns[1..][j - 1];
    }
  }

  /**
   * `find_col(df, keywords, exclude)`: walks the columns in order and returns
   * the first whose folded name contains a lower-cased keyword, skipping one
   * that also contains an exclude term; `None` when no column qualifies. An
   * absent exclude list is the empty one.
   */
  method FindCol(columns: seq<string>, keywords: seq<string>, exclude: seq<string>) returns (r: Option<string>)
    ensures r == FirstMatch(columns, keywords, exclude)
  {
    for i := 0 to |columns|
      invariant FirstMatch(columns[i..], keywords, exclude) == FirstMatch(columns, keywords, exclude)
    {
      if Mentions(columns[i], keywords) {
        if Mentions(columns[i], exclude) {
          assert columns[i..][1..] == columns[i + 1..];
          continue;
        }
        return Some(columns[i]);
      }
      assert columns[i..][1..] == columns[i + 1..];
    }
    return None;
  }

  /** No exclude terms: a column is accepted exactly when it mentions a keyword. */
  lemma NoExcludeAcceptsMentions(col: string, keywords: seq<string>)
    ensures Accepts(col, keywords, []) <==> Mentions(col, keywords)
  {
  }

  /** An earlier column that mentions a keyword wins over a later, more specific one. */
  lemma {:induction false} EarlierColumnWins(before: seq<string>, col: string, after: seq<string>,
                                             keywords: seq<string>, exclude: seq<string>)
    requires forall j | 0 <= j < |before| :: !Accepts(before[j], keywords, exclude)
    requires Accepts(col, keywords, exclude)
    ensures FirstMatch(before + [col] + after, keywords, exclude) == Some(col)
    decreases |before|
  {
    var cs := before + [col] + after;
    if before == [] {
      assert cs[0] == col;
    } else {
      assert cs[0] == before[0];
      assert cs[1..] == before[1..] + [col] + after;
      EarlierColumnWins(before[1..], col, after, keywords, exclude);
    }
  }

  /** A header that reads `(Parent) ASIN` is taken for `['child asin', 'asin']` when it comes first. */
  lemma ParentAsinTakenFirst()
    ensures FirstMatch(["(Parent) ASIN", "(Child) ASIN"], ["child asin", "asin"], []) == Some("(Parent) ASIN")
  {
    ParentAsinMentioned();
  }

  lemma ParentAsinMentioned()
    ensures Mentions("(Parent) ASIN", ["child asin", "asin"])
  {
    var kws := ["child asin", "asin"];
    ParentAsinFolded();
    assert Lower(kws[1]) == "asin";
    assert OccursAt("(parent) asin", "asin", 9);
    ContainedAt("(parent) asin", Lower(kws[1]), 9);
  }

  lemma ParentAsinFolded()
    ensures Folded("(Parent) ASIN") == "(parent) asin"
  {
    var col := "(Parent) ASIN";
    assert Strip(col) == col by {
      StripPadded("", col, "");
      assert "" + col + "" == col;
    }
  }

  /** Of two headers that both contain the keyword, the first declared one is returned. */
  lemma FirstDeclaredHeaderReturned()
    ensures FirstMatch(["Ordered Product Sales (Total)", "Units Ordered Product Sales"],
                       ["ordered product sales"], []) == Some("Ordered Product Sales (Total)")
  {
    OrderedSalesMentioned();
    FirstOfTwo("Ordered Product Sales (Total)", "Units Ordered Product Sales", ["ordered product sales"]);
  }

  lemma FirstOfTwo(col: string, other: string, keywords: seq<string>)
    requires Mentions(col, keywords)
    ensures FirstMatch([col, other], keywords, []) == Some(col)
  {
    assert Accepts(col, keywords, []);
  }

  lemma OrderedSalesMentioned()
    ensures Mentions("Ordered Product Sales (Total)", ["ordered product sales"])
  {
    var kws := ["ordered product sales"];
    OrderedSalesFolded();
    assert Lower(kws[0]) == kws[0];
    assert OccursAt("ordered product sales (total)", kws[0], 0);
    ContainedAt("ordered product sales (total)", Lower(kws[0]), 0);
  }

  lemma OrderedSalesFolded()
    ensures Folded("Ordered Product Sales (Total)") == "ordered product sales (total)"
  {
    OrderedSalesStripped();
  }

  lemma OrderedSalesStripped()
    ensures Strip("Ordered Product Sales (Total)") == "Ordered Product Sales (Total)"
  {
    var col := "Ordered Product Sales (Total)";
    StripPadded("", col, "");
    assert "" + col + "" == col;
  }
}

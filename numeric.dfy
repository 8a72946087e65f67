/**
 * `clean_numeric` (app.py): turns a report cell into a number, stripping the
 * currency code, the dollar sign, non-breaking spaces and thousands separators
 * from text first and never failing.
 */
module Numeric {
  import opened Wrappers
  import opened Text
  import opened Decimal
  import opened Cells

  /** Unsigned decimal: digits, optionally followed by '.' and more digits; at least one digit. */
  function ParseUnsigned(s: string): (r: Option<real>)
    ensures r.Some? ==> r.value >= 0.0
  {
    var k := LeadingDigits(s);
    if k == |s| then
      if k > 0 then Some(DigitsValue(s) as real) else None
    else if s[k] == '.' && AllDigits(s[k + 1..]) && (k > 0 || k + 1 < |s|) then
      Some(DigitsValue(s[..k]) as real + Fraction(s[k + 1..]))
    else None
  }

  /**
   * `pd.to_numeric` on an already stripped string: the empty string, and only
   * it, gives NaN; a signed decimal gives its value, negative only behind a
   * minus sign; anything else fails (`None`).
   */
  function ParseNumber(s: string): (r: Option<Cell>)
    ensures r == Some(Missing) <==> s == ""
    ensures r.Some? && s != "" ==> r.value.Num?
    ensures r.Some? && r.value.Num? && r.value.v < 0.0 ==> s[0] == '-'
  {
    if s == "" then Some(Missing)
    else if s[0] == '-' then
      match ParseUnsigned(s[1..])
      case Some(x) => Some(Num(-x))
      case None => None
    else if s[0] == '+' then
      match ParseUnsigned(s[1..])
      case Some(x) => Some(Num(x))
      case None => None
    else
      match ParseUnsigned(s)
      case Some(x) => Some(Num(x))
      case None => None
  }

  /**
   * The text cleaning of `clean_numeric`, four removals and a strip: it only
   * deletes, so the result is no longer than the input and holds no character
   * the input lacks.
   */
  function StripTokens(s: string): (r: string)
    ensures |r| <= |s|
    ensures forall c | c in r :: c in s
  {
    Strip(Remove(Remove(Remove(Remove(s, "AED"), "$"), "\U{a0}"), ","))
  }

  /**
   * `clean_numeric` on one cell: numbers and NaN pass through, text is cleaned
   * and parsed, and whatever does not parse, like any other object, becomes 0.
   */
  function CleanNumeric(c: Cell): (r: Cell)
    ensures r.Num? || r.Missing?
    ensures c.Num? || c.Missing? ==> r == c
    ensures c.Obj? ==> r == Num(0.0)
    ensures c.Str? && ParseNumber(StripTokens(c.s)).None? ==> r == Num(0.0)
  {
    match c
    case Str(s) =>
      (match ParseNumber(StripTokens(s))
       case Some(x) => x
       case None => Num(0.0))
    case Num(_) => c
    case Missing => c
    case Obj(_) => Num(0.0)
  }

  /** After cleaning, no dollar sign, non-breaking space or comma is left, nor outer whitespace. */
  lemma StripTokensRemovesSeparators(s: string)
    ensures '$' !in StripTokens(s) && '\U{a0}' !in StripTokens(s) && ',' !in StripTokens(s)
    ensures StripTokens(s) == [] || (!IsSpace(StripTokens(s)[0]) && !IsSpace(StripTokens(s)[|StripTokens(s)| - 1]))
  {
    var s1 := Remove(s, "AED");
    var s2 := Remove(s1, "$");
    var s3 := Remove(s2, "\U{a0}");
    var s4 := Remove(s3, ",");
    RemoveCharGone(s1, "$");
    RemoveCharGone(s2, "\U{a0}");
    RemoveCharGone(s3, ",");
  }

  /** Python's `replace` makes a single pass: an "AED" can be left over when removing one forms another. */
  lemma CurrencyCodeSinglePass()
    ensures StripTokens("AAEDED") == "AED"
  {
    RemoveOverlapping();
    RemoveAbsent("AED", "$");
    RemoveAbsent("AED", "\U{a0}");
    RemoveAbsent("AED", ",");
    StripPadded("", "AED", "");
    assert "" + "AED" + "" == "AED";
  }

  /** Removing "AED" from "AAEDED" drops the inner occurrence only. */
  lemma RemoveOverlapping()
    ensures Remove("AAEDED", "AED") == "AED"
  {
    var s := "AAEDED";
    assert Remove("ED", "AED") == "ED";
    assert s[1..] == "AEDED" && s[1..][..3] == "AED" && s[1..][3..] == "ED";
    assert Remove(s[1..], "AED") == "ED";
    assert s[..3] == "AAE" && s[..3][1] != "AED"[1];
    assert Remove(s, "AED") == [s[0]] + "ED";
    assert [s[0]] + "ED" == "AED";
  }

  /** Reading back the numeral of `n` gives `n`. */
  lemma ParseNatRoundTrip(n: nat)
    ensures ParseNumber(NatToString(n)) == Some(Num(n as real))
  {
    var s := NatToString(n);
    assert IsDigit(s[0]);
    LeadingDigitsOf(s, "");
    assert s + "" == s;
    NatToStringValue(n);
  }

  /** Reading back "<digits>.<digits>" gives the integer part plus the fraction. */
  lemma ParseDecimalRoundTrip(whole: string, frac: string)
    requires |whole| > 0 && AllDigits(whole) && AllDigits(frac)
    ensures (whole + "." + frac)[0] == whole[0]
    ensures ParseUnsigned(whole + "." + frac) == Some(DigitsValue(whole) as real + Fraction(frac))
  {
    var s := whole + "." + frac;
    assert s == whole + ("." + frac);
    LeadingDigitsOf(whole, "." + frac);
    var k := |whole|;
    assert s[..k] == whole;
    assert s[k] == '.';
    assert s[k + 1..] == frac;
    ParseUnsignedPoint(s, k, whole, frac);
    assert s[0] == whole[0];
  }

  /**
   * As with `pd.to_numeric`, the point may open or close the numeral:
   * ".<digits>" reads as the fraction alone, "<digits>." as the whole number,
   * and a lone "." is not a number.
   */
  lemma PointAtEitherEnd(d: string)
    requires |d| > 0 && AllDigits(d)
    ensures ParseNumber("." + d) == Some(Num(Fraction(d)))
    ensures ParseNumber(d + ".") == Some(Num(DigitsValue(d) as real))
    ensures ParseNumber(".") == None
  {
    PointOpens(d);
    UnsignedNumber("." + d, Fraction(d));
    PointCloses(d);
    UnsignedNumber(d + ".", DigitsValue(d) as real);
  }

  /** ".<digits>" reads as the fraction alone. */
  lemma PointOpens(d: string)
    requires |d| > 0 && AllDigits(d)
    ensures |"." + d| > 0 && ("." + d)[0] == '.'
    ensures ParseUnsigned("." + d) == Some(Fraction(d))
  {
    var lead := "." + d;
    LeadingDigitsOf("", lead);
    assert "" + lead == lead && lead[..0] == "" && lead[1..] == d;
    ParseUnsignedPoint(lead, 0, "", d);
  }

  /** "<digits>." reads as the whole number. */
  lemma PointCloses(d: string)
    requires |d| > 0 && AllDigits(d)
    ensures |d + "."| > 0 && (d + ".")[0] == d[0] && IsDigit(d[0])
    ensures ParseUnsigned(d + ".") == Some(DigitsValue(d) as real)
  {
    var trail := d + ".";
    LeadingDigitsOf(d, ".");
    assert trail[..|d|] == d && trail[|d|] == '.' && trail[|d| + 1..] == "";
    ParseUnsignedPoint(trail, |d|, d, "");
  }

  /** An unsigned numeral is a number of its own. */
  lemma UnsignedNumber(u: string, x: real)
    requires |u| > 0 && u[0] != '-' && u[0] != '+' && ParseUnsigned(u) == Some(x)
    ensures ParseNumber(u) == Some(Num(x))
  {
  }

  lemma ParseUnsignedPoint(s: string, k: nat, whole: string, frac: string)
    requires k < |s| && (k > 0 || k + 1 < |s|) && LeadingDigits(s) == k && s[k] == '.'
    requires s[..k] == whole && s[k + 1..] == frac && AllDigits(whole) && AllDigits(frac)
    ensures ParseUnsigned(s) == Some(DigitsValue(whole) as real + Fraction(frac))
  {
  }

  /*
   * The amounts the dashboard shows (app.py, lines 107-109) carry the AED code,
   * group thousands with commas and have two decimals. Cleaning
   * such a text gives the amount back.
   */

  /** Three digits, with leading zeros, for a number below 1000. */
  function Pad3(r: nat): (s: string)
    requires r < 1000
    ensures |s| == 3 && AllDigits(s) && DigitsValue(s) == r
  {
    var t := r % 100;
    var s := [DigitChar(r / 100), DigitChar(t / 10), DigitChar(t % 10)];
    assert s[..2][..1] == [DigitChar(r / 100)] && s[..2][..1][..0] == [];
    assert DigitsValue(s[..2][..1]) == r / 100;
    assert DigitsValue(s[..2]) == (r / 100) * 10 + t / 10;
    assert DigitsValue(s) == ((r / 100) * 10 + t / 10) * 10 + t % 10;
    s
  }

  /** Two digits, with a leading zero, for a number of cents below 100. */
  function Pad2(c: nat): (s: string)
    requires c < 100
    ensures |s| == 2 && AllDigits(s) && Fraction(s) == c as real / 100.0
  {
    var s := [DigitChar(c / 10), DigitChar(c % 10)];
    assert s[1..] == [DigitChar(c % 10)] && s[1..][1..] == [];
    assert Fraction(s[1..]) == (c % 10) as real / 10.0;
    assert Fraction(s) == ((c / 10) as real + (c % 10) as real / 10.0) / 10.0;
    assert c == (c / 10) * 10 + c % 10;
    s
  }

  /** The integer part as the `,` format option writes it: groups of three digits. */
  function Grouped(n: nat): (s: string)
    ensures |s| > 0 && IsDigit(s[0]) && IsDigit(s[|s| - 1])
    ensures forall i | 0 <= i < |s| :: IsDigit(s[i]) || s[i] == ','
  {
    if n < 1000 then NatToString(n)
    else Grouped(n / 1000) + "," + Pad3(n % 1000)
  }

  /** format(x, ",.2f") for x = sign * (whole + cents / 100). */
  function AmountText(negative: bool, whole: nat, cents: nat): string
    requires cents < 100
  {
    (if negative then "-" else "") + Grouped(whole) + "." + Pad2(cents)
  }

  /** f"AED {x:,.2f}". */
  function FormatAed(negative: bool, whole: nat, cents: nat): string
    requires cents < 100
  {
    "AED " + AmountText(negative, whole, cents)
  }

  /** Dropping the commas of a grouped numeral leaves the plain numeral of the same value. */
  lemma {:induction false} UngroupedValue(n: nat)
    ensures AllDigits(Remove(Grouped(n), ","))
    ensures |Remove(Grouped(n), ",")| > 0
    ensures DigitsValue(Remove(Grouped(n), ",")) == n
  {
    if n < 1000 {
      RemoveAbsent(NatToString(n), ",");
      NatToStringValue(n);
    } else {
      var q, r := n / 1000, n % 1000;
      UngroupedValue(q);
      var d := Remove(Grouped(q), ",");
      assert Grouped(n) == Grouped(q) + "," + Pad3(r);
      UngroupedGroup(Grouped(q), r);
      DigitsValueAppend(d, Pad3(r));
      assert Pow10(3) == 1000;
      assert DigitsValue(d + Pad3(r)) == q * 1000 + r;
    }
  }

  /** Dropping the commas of "<g>,<ddd>": the commas of `g` go, and so does the separator. */
  lemma UngroupedGroup(g: string, r: nat)
    requires r < 1000
    ensures Remove(g + "," + Pad3(r), ",") == Remove(g, ",") + Pad3(r)
  {
    RemoveCharConcat(g + ",", Pad3(r), ",");
    RemoveCharConcat(g, ",", ",");
    RemoveAbsent(Pad3(r), ",");
    assert Remove(",", ",") == [] by { assert ","[..1] == ","; }
  }

  /** The amount without its commas. */
  lemma UngroupedAmount(negative: bool, whole: nat, cents: nat)
    requires cents < 100
    ensures Remove(AmountText(negative, whole, cents), ",")
         == (if negative then "-" else "") + Remove(Grouped(whole), ",") + "." + Pad2(cents)
  {
    var sign, g, p := if negative then "-" else "", Grouped(whole), Pad2(cents);
    RemoveCharConcat(sign + g + ".", p, ",");
    RemoveCharConcat(sign + g, ".", ",");
    RemoveCharConcat(sign, g, ",");
    RemoveAbsent(p, ",");
    RemoveAbsent(".", ",");
    RemoveAbsent(sign, ",");
  }

  /** The characters of an amount: digits, commas, a point and perhaps a minus sign. */
  lemma AmountChars(negative: bool, whole: nat, cents: nat)
    requires cents < 100
    ensures forall c | c in AmountText(negative, whole, cents) :: IsDigit(c) || c in "-.,"
  {
    var sign, g, p := if negative then "-" else "", Grouped(whole), Pad2(cents);
    assert forall c | c in g :: IsDigit(c) || c == ',';
    assert forall c | c in p :: IsDigit(c);
  }

  /** The currency code in front of a text free of the other tokens is all that goes. */
  lemma StripTokensAfterCode(a: string)
    requires 'A' !in a && '$' !in a && '\U{a0}' !in a
    ensures StripTokens("AED " + a) == Strip(" " + Remove(a, ","))
  {
    var t := " " + a;
    assert "AED " + a == "AED" + t;
    assert Remove("AED" + t, "AED") == t by {
      RemoveLeading("AED", t);
      RemoveAbsent(t, "AED");
    }
    assert Remove(t, "$") == t by { RemoveAbsent(t, "$"); }
    assert Remove(t, "\U{a0}") == t by { RemoveAbsent(t, "\U{a0}"); }
    assert Remove(t, ",") == " " + Remove(a, ",") by { RemoveKeepsFreePrefix(" ", a, ","); }
  }

  /** A signed decimal numeral with one space in front strips to itself. */
  lemma StripSignedDecimal(negative: bool, d: string, p: string)
    requires |d| > 0 && AllDigits(d) && |p| > 0 && AllDigits(p)
    ensures var core := (if negative then "-" else "") + d + "." + p;
      Strip(" " + core) == core
  {
    var core := (if negative then "-" else "") + d + "." + p;
    assert core[0] == (if negative then '-' else d[0]);
    assert core[|core| - 1] == p[|p| - 1];
    StripSpaceBefore(core);
  }

  /** The text cleaning of an amount written as the dashboard writes it leaves sign, digits, point, cents. */
  lemma FormattedAmountCleaned(negative: bool, whole: nat, cents: nat)
    requires cents < 100
    ensures StripTokens(FormatAed(negative, whole, cents))
         == (if negative then "-" else "") + (Remove(Grouped(whole), ",") + "." + Pad2(cents))
  {
    var a := AmountText(negative, whole, cents);
    assert StripTokens("AED " + a) == Strip(" " + Remove(a, ",")) by {
      AmountChars(negative, whole, cents);
      StripTokensAfterCode(a);
    }
    var core := Remove(a, ",");
    assert core == (if negative then "-" else "") + Remove(Grouped(whole), ",") + "." + Pad2(cents) by {
      UngroupedAmount(negative, whole, cents);
    }
    assert Strip(" " + core) == core by {
      UngroupedValue(whole);
      StripSignedDecimal(negative, Remove(Grouped(whole), ","), Pad2(cents));
    }
    Reassociate(if negative then "-" else "", Remove(Grouped(whole), ","), ".", Pad2(cents));
  }

  lemma Reassociate(a: string, b: string, c: string, d: string)
    ensures a + b + c + d == a + (b + c + d)
  {
  }

  /** Cleaning an amount written as the dashboard writes it gives the amount back. */
  lemma FormattedAmountRoundTrip(negative: bool, whole: nat, cents: nat)
    requires cents < 100
    ensures CleanNumeric(Str(FormatAed(negative, whole, cents)))
         == Num((if negative then -1.0 else 1.0) * (whole as real + cents as real / 100.0))
  {
    FormattedAmountCleaned(negative, whole, cents);
    AmountParsed(negative, whole, cents);
  }

  /** The cleaned text of an amount reads as the amount. */
  lemma AmountParsed(negative: bool, whole: nat, cents: nat)
    requires cents < 100
    ensures ParseNumber((if negative then "-" else "") + (Remove(Grouped(whole), ",") + "." + Pad2(cents)))
         == Some(Num((if negative then -1.0 else 1.0) * (whole as real + cents as real / 100.0)))
  {
    UngroupedValue(whole);
    var d, p := Remove(Grouped(whole), ","), Pad2(cents);
    ParseDecimalRoundTrip(d, p);
    ParseSigned(negative, d + "." + p, DigitsValue(d) as real + Fraction(p));
  }

  /** A leading minus sign negates what the unsigned numeral reads as. */
  lemma ParseSigned(negative: bool, u: string, x: real)
    requires |u| > 0 && IsDigit(u[0]) && ParseUnsigned(u) == Some(x)
    ensures ParseNumber((if negative then "-" else "") + u) == Some(Num((if negative then -1.0 else 1.0) * x))
  {
    var t := (if negative then "-" else "") + u;
    if negative {
      assert t[0] == '-' && t[1..] == u;
    } else {
      assert t == u;
    }
  }

  /** The amount from the spreadsheet example: "AED 1,234.50" cleans to 1234.5. */
  lemma CleanGroupedAmountExample()
    ensures CleanNumeric(Str("AED 1,234.50")) == Num(1234.5)
  {
    assert Grouped(1) == "1";
    assert Pad3(234) == "234";
    assert Grouped(1234) == "1,234";
    assert Pad2(50) == "50";
    assert FormatAed(false, 1234, 50) == "AED 1,234.50";
    FormattedAmountRoundTrip(false, 1234, 50);
  }

  /** "$0" cleans to 0. */
  lemma CleanDollarZeroExample()
    ensures CleanNumeric(Str("$0")) == Num(0.0)
  {
    assert StripTokens("$0") == "0" by {
      assert Remove("$0", "AED") == "$0" by { RemoveAbsent("$0", "AED"); }
      assert Remove("$0", "$") == "0" by {
        assert "$0" == "$" + "0";
        RemoveLeading("$", "0");
        RemoveAbsent("0", "$");
      }
      assert Remove("0", "\U{a0}") == "0" by { RemoveAbsent("0", "\U{a0}"); }
      assert Remove("0", ",") == "0" by { RemoveAbsent("0", ","); }
      assert Strip("0") == "0" by { StripPadded("", "0", ""); assert "" + "0" + "" == "0"; }
    }
    assert NatToString(0) == "0";
    ParseNatRoundTrip(0);
  }

  /** Text that is not a number cleans to 0. */
  lemma CleanNotANumberExample()
    ensures CleanNumeric(Str("N/A")) == Num(0.0)
  {
    NotANumberKeepsItsText();
    assert LeadingDigits("N/A") == 0;
    assert ParseUnsigned("N/A") == None;
  }

  lemma NotANumberKeepsItsText()
    ensures StripTokens("N/A") == "N/A"
  {
    assert Remove("N/A", "AED") == "N/A" by {
      RemoveKeepsFreePrefix("N/", "A", "AED");
      assert "N/" + "A" == "N/A";
    }
    assert Remove("N/A", "$") == "N/A" by { RemoveAbsent("N/A", "$"); }
    assert Remove("N/A", "\U{a0}") == "N/A" by { RemoveAbsent("N/A", "\U{a0}"); }
    assert Remove("N/A", ",") == "N/A" by { RemoveAbsent("N/A", ","); }
    assert Strip("N/A") == "N/A" by { StripPadded("", "N/A", ""); assert "" + "N/A" + "" == "N/A"; }
  }

  /** A bare currency code leaves the empty string, which pandas reads as NaN. */
  lemma CleanBareCodeExample()
    ensures CleanNumeric(Str("AED")) == Missing
  {
    assert StripTokens("AED") == "" by {
      RemoveLeading("AED", "");
      assert "AED" + "" == "AED";
    }
  }
}

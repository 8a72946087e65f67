/**
 * The brand tables of app.py and `get_brand_robust`, the classifier that reads
 * a brand out of the identifying text of a product.
 */
module Brands {
  import opened Wrappers
  import opened Text
  import opened Cells

  /** The label given when no brand keyword is found. */
  const Unmapped := "Unmapped"

  /**
   * The keyword table of `get_brand_robust`, brand by brand in declaration
   * order, which is also the order in which brands are tried.
   */
  const Targets: seq<(string, seq<string>)> := [
    ("Maison de l\U{2019}Avenir", ["MAISON", "MA_", "JPP", "CEB", "PGN", "VGA"]),
    ("Creation Lamis", ["LAMIS", "CL_", "CL |", "CLP", "CPL", "3DM", "CLAM"]),
    ("Jean Paul Dupont", ["DUPONT", "JPD"]),
    ("Paris Collection", ["PARIS COLLECTION", "PC_", "PC |", "PCB", "PCH", "PCBC", "PCF", "PCK", "PCL"]),
    ("Dorall Collection", ["DORALL", "DC_", "DC |", "DCL"]),
    ("CP Trendies", ["TRENDIES", "CPT", "CP_", "CPMK", "CPM", "CPN", "TGJ", "COCP"])
  ]

  /** A brand label or "Unmapped": what `get_brand_robust` can return. */
  predicate IsBrand(b: string) {
    b in Labels() || b == Unmapped
  }

  /** `BRAND_MAP`: brand codes and their labels, in declaration order. */
  const BrandMap: seq<(string, string)> := [
    ("MA", "Maison de l\U{2019}Avenir"), ("CL", "Creation Lamis"), ("JPD", "Jean Paul Dupont"),
    ("PC", "Paris Collection"), ("DC", "Dorall Collection"), ("CPT", "CP Trendies")
  ]

  /** `MAISON_REF`: curated display names of Maison de l'Avenir products, by ASIN. */
  const MaisonRef: map<string, string> := map[
    "B0DGLJHCJJ" := "Oud Opulence", "B0DGLJKQHN" := "Nova Noir", "B0DGLLBR1R" := "Majestic Millennium",
    "B0DG919KGY" := "Jardin De Jade", "B0DGLJJZX8" := "Opulent Odyssey", "B0DGLHZCNX" := "Aurora Opulence",
    "B0DGLHTX18" := "Oud Intense", "B0DGLHTYB2" := "Midnight Solstice", "B0DGLM8XYD" := "Vortex Echo",
    "B0DGLJYGKW" := "Avenir Triumph", "B0DZX2RL6P" := "Noir Intense", "B0DGLKQJBY" := "Nebula Nectar",
    "B0DGLHHJFZ" := "Electra Elixir", "B0DGLM918B" := "Ethereal Embrace", "B0DGLLSH43" := "Eternal Oud"
  ]

  /** Every curated key is an ASIN: ten characters, the first two "B0". */
  lemma MaisonRefKeysAreAsins()
    ensures forall k | k in MaisonRef :: |k| == 10 && k[..2] == "B0"
  {
  }

  /** The brand labels, in the order they are tried. */
  function Labels(): (r: seq<string>)
    ensures |r| == |Targets| && forall i | 0 <= i < |Targets| :: r[i] == Targets[i].0
  {
    seq(|Targets|, i requires 0 <= i < |Targets| => Targets[i].0)
  }

  /** The display tabs of `BRAND_MAP` name the same brands, in the same order, as the keyword table. */
  lemma BrandMapMatchesTargets()
    ensures |BrandMap| == |Targets|
    ensures forall i | 0 <= i < |BrandMap| :: BrandMap[i].1 == Targets[i].0
  {
  }

  /** No two brands share a label, and no brand is called "Unmapped". */
  lemma LabelsDistinct()
    ensures forall i, j | 0 <= i < j < |Targets| :: Targets[i].0 != Targets[j].0
    ensures forall i | 0 <= i < |Targets| :: Targets[i].0 != Unmapped
  {
  }

  /** Every keyword has at least one character. */
  lemma KeywordsNonEmpty()
    ensures forall i | 0 <= i < |Targets| :: forall k | 0 <= k < |Targets[i].1| :: |Targets[i].1[k]| > 0
  {
  }

  /** One field's contribution to the scan text: a space, then the value upper-cased. */
  function Field(v: Option<Cell>): string {
    if v.Some? then " " + Upper(Render(v.value)) else ""
  }

  /**
   * The text `get_brand_robust` scans: the title, the SKU and the campaign, in
   * that order, each only when its column is given (`Some`), and the campaign
   * also only when it is not NaN. The text is empty exactly when no field
   * contributes, and holds no lower-case ASCII letter; `ScanTextHoldsFields`
   * says where each field lands in it.
   */
  function ScanText(title: Option<Cell>, sku: Option<Cell>, camp: Option<Cell>): (r: string)
    ensures r == "" <==> title.None? && sku.None? && (camp.None? || camp.value.Missing?)
    ensures forall i | 0 <= i < |r| :: !('a' <= r[i] <= 'z')
  {
    Field(title) + Field(sku) + (if camp.Some? && camp.value.Missing? then "" else Field(camp))
  }

  /**
   * Each given field (a NaN campaign aside) occurs in the scan text as a space
   * followed by its upper-cased rendering, the title first, then the SKU.
   */
  lemma ScanTextHoldsFields(title: Option<Cell>, sku: Option<Cell>, camp: Option<Cell>)
    ensures title.Some? ==> OccursAt(ScanText(title, sku, camp), " " + Upper(Render(title.value)), 0)
    ensures sku.Some? ==> OccursAt(ScanText(title, sku, camp), " " + Upper(Render(sku.value)), |Field(title)|)
    ensures camp.Some? && !camp.value.Missing? ==>
      Contains(ScanText(title, sku, camp), " " + Upper(Render(camp.value)))
  {
    var c := if camp.Some? && camp.value.Missing? then "" else Field(camp);
    PiecesOccur(Field(title), Field(sku), c);
  }

  /** Each of three concatenated texts occurs where it was put. */
  lemma PiecesOccur(t: string, k: string, c: string)
    ensures OccursAt(t + k + c, t, 0) && OccursAt(t + k + c, k, |t|) && OccursAt(t + k + c, c, |t| + |k|)
  {
    var r := t + k + c;
    assert r[..|t|] == t;
    assert r[|t|..|t| + |k|] == k;
    assert r[|t| + |k|..|t| + |k| + |c|] == c;
  }

  /** Some keyword of the list occurs in the text. */
  predicate Hits(text: string, keywords: seq<string>) {
    exists k | 0 <= k < |keywords| :: Contains(text, keywords[k])
  }

  /** The first brand from position `b` on whose keywords hit the text, else "Unmapped". */
  function ClassifyFrom(text: string, b: nat): (r: string)
    requires b <= |Targets|
    ensures r == Unmapped || exists i | b <= i < |Targets| :: r == Targets[i].0 && Hits(text, Targets[i].1)
    decreases |Targets| - b
  {
    if b == |Targets| then Unmapped
    else if Hits(text, Targets[b].1) then Targets[b].0
    else ClassifyFrom(text, b + 1)
  }

  /**
   * The brand the scan text names, by the earliest-declared brand with a hit:
   * either "Unmapped" or the label of a brand whose code occurs in the text.
   */
  function Classify(text: string): (r: string)
    ensures r == Unmapped || exists i | 0 <= i < |Targets| :: r == Targets[i].0 && Hits(text, Targets[i].1)
  {
    ClassifyFrom(text, 0)
  }

  /**
   * `get_brand_robust`: builds the scan text from the title, SKU and campaign
   * fields it is given, then classifies it.
   */
  method GetBrandRobust(title: Option<Cell>, sku: Option<Cell>, camp: Option<Cell>) returns (brand: string)
    ensures brand == Classify(ScanText(title, sku, camp))
  {
    var text := BuildScanText(title, sku, camp);
    brand := FirstBrand(text);
  }

  /** The first half of `get_brand_robust`: each given field, rendered and upper-cased, appended after a space. */
  method BuildScanText(title: Option<Cell>, sku: Option<Cell>, camp: Option<Cell>) returns (text: string)
    ensures text == ScanText(title, sku, camp)
  {
    text := "";
    if title.Some? { text := text + (" " + Upper(Render(title.value))); }
    assert text == Field(title);
    if sku.Some? { text := text + (" " + Upper(Render(sku.value))); }
    assert text == Field(title) + Field(sku);
    if camp.Some? && !camp.value.Missing? { text := text + (" " + Upper(Render(camp.value))); }
  }

  /**
   * The second half of `get_brand_robust`: tries the brands in order and returns the
   * first one for which `any` of its keywords occurs in the text.
   */
  method FirstBrand(text: string) returns (brand: string)
    ensures brand == Classify(text)
  {
    for b := 0 to |Targets|
      invariant ClassifyFrom(text, b) == Classify(text)
    {
      if Hits(text, Targets[b].1) {
        return Targets[b].0;
      }
    }
    return Unmapped;
  }

  /** The classifier's answer is always one of the six labels or "Unmapped". */
  lemma ClassifyIsLabel(text: string)
    ensures Classify(text) in Labels() || Classify(text) == Unmapped
  {
    var r := Classify(text);
    if r != Unmapped {
      var i :| 0 <= i < |Targets| && r == Targets[i].0 && Hits(text, Targets[i].1);
      assert Labels()[i] == r;
    }
  }

  /** From position `b` on, brand `i` is chosen exactly when it hits and no brand between `b` and `i` does. */
  lemma {:induction false} ClassifyFromFirstHit(text: string, b: nat, i: nat)
    requires b <= i < |Targets|
    ensures ClassifyFrom(text, b) == Targets[i].0 <==>
      Hits(text, Targets[i].1) && forall j | b <= j < i :: !Hits(text, Targets[j].1)
    decreases i - b
  {
    LabelsDistinct();
    if b < i {
      ClassifyFromFirstHit(text, b + 1, i);
      if Hits(text, Targets[b].1) {
        assert Targets[b].0 != Targets[i].0;
      }
    }
  }

  /** The earliest-declared brand with a keyword hit wins, and only that brand. */
  lemma ClassifyFirstHit(text: string, i: nat)
    requires i < |Targets|
    ensures Classify(text) == Targets[i].0 <==>
      Hits(text, Targets[i].1) && forall j | 0 <= j < i :: !Hits(text, Targets[j].1)
  {
    ClassifyFromFirstHit(text, 0, i);
  }

  /** From position `b` on, "Unmapped" comes out exactly when no brand there hits. */
  lemma {:induction false} ClassifyFromUnmapped(text: string, b: nat)
    requires b <= |Targets|
    ensures ClassifyFrom(text, b) == Unmapped <==> forall j | b <= j < |Targets| :: !Hits(text, Targets[j].1)
    decreases |Targets| - b
  {
    LabelsDistinct();
    if b < |Targets| {
      ClassifyFromUnmapped(text, b + 1);
    }
  }

  /** "Unmapped" comes out exactly when no keyword of any brand occurs in the text. */
  lemma ClassifyUnmapped(text: string)
    ensures Classify(text) == Unmapped <==> forall j | 0 <= j < |Targets| :: !Hits(text, Targets[j].1)
  {
    ClassifyFromUnmapped(text, 0);
  }

  /** With no field given, the scan text is empty and the product is unmapped. */
  lemma NoFieldsUnmapped()
    ensures Classify(ScanText(None, None, None)) == Unmapped
  {
    assert ScanText(None, None, None) == "";
    KeywordsNonEmpty();
    forall j | 0 <= j < |Targets| ensures !Hits("", Targets[j].1) {
      forall k | 0 <= k < |Targets[j].1| ensures !Contains("", Targets[j].1[k]) {
        AbsentCharNotContained("", Targets[j].1[k], 0);
      }
    }
    ClassifyUnmapped("");
  }

  /** A NaN campaign adds nothing to the scan. */
  lemma MissingCampaignSkipped(title: Option<Cell>, sku: Option<Cell>)
    ensures ScanText(title, sku, Some(Missing)) == ScanText(title, sku, None)
  {
  }

  /**
   * The SKU "PCL_001" holds a Paris Collection keyword ("PCL") and a Creation
   * Lamis keyword ("CL_"); Creation Lamis is declared first and wins.
   */
  lemma EarlierBrandWinsTie()
    ensures Hits(ScanText(None, Some(Str("PCL_001")), None), Targets[3].1)
    ensures Classify(ScanText(None, Some(Str("PCL_001")), None)) == "Creation Lamis"
  {
    var text := " PCL_001";
    SkuOnlyText("PCL_001");
    SpaceThen("PCL_001", text);
    TieHitsBoth();
    MaisonMissesTie();
    assert forall j | 0 <= j < 1 :: !Hits(text, Targets[j].1);
    ClassifyFirstHit(text, 1);
    assert Classify(text) == Targets[1].0;
  }

  /** " PCL_001" holds Paris Collection's "PCL" and Creation Lamis's "CL_". */
  lemma TieHitsBoth()
    ensures Hits(" PCL_001", Targets[3].1) && Hits(" PCL_001", Targets[1].1)
  {
    var text := " PCL_001";
    assert Targets[3].1[8] == "PCL" && Targets[1].1[1] == "CL_";
    assert OccursAt(text, "PCL", 1);
    ContainedAt(text, Targets[3].1[8], 1);
    assert OccursAt(text, "CL_", 2);
    ContainedAt(text, Targets[1].1[1], 2);
  }

  /** The scan text of a SKU alone written in capitals: a space, then the SKU. */
  lemma SkuOnlyText(sku: string)
    requires forall i | 0 <= i < |sku| :: !('a' <= sku[i] <= 'z')
    ensures ScanText(None, Some(Str(sku)), None) == " " + sku
  {
    assert Upper(sku) == sku by {
      forall i | 0 <= i < |sku| ensures Upper(sku)[i] == sku[i] {
        assert UpperChar(sku[i]) == sku[i];
      }
    }
    assert Field(None) == "";
    assert " " + sku + "" + "" == " " + sku;
  }

  lemma SpaceThen(s: string, t: string)
    requires |t| > 0 && t[0] == ' ' && t[1..] == s
    ensures " " + s == t
  {
    assert t == [t[0]] + t[1..];
  }

  /** " PCL_001" holds no keyword of Maison de l'Avenir, the first brand tried. */
  lemma MaisonMissesTie()
    ensures !Hits(" PCL_001", Targets[0].1)
  {
    var text, kws := " PCL_001", Targets[0].1;
    AbsentCharNotContained(text, kws[0], 0);
    AbsentCharNotContained(text, kws[1], 0);
    AbsentCharNotContained(text, kws[2], 0);
    AbsentCharNotContained(text, kws[3], 1);
    AbsentCharNotContained(text, kws[4], 1);
    AbsentCharNotContained(text, kws[5], 0);
  }
}
